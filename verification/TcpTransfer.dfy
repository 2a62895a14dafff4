/**
  The ns-3 bridge: a fetched message is written to a simulated TCP connection in pieces, whenever there
  is room, and put together again on the other side, where closing the connection posts it.
 */
module TcpTransfer {
  import opened Messages
  import opened Buffers
  import opened Decimals
  import opened HostNames

  const WORD := 0x1_0000_0000

  // ---------------------------------------------------------------- sending

  /** `bytesSent` is a 32-bit counter. */
  datatype PendingTransfer = PendingTransfer(srcId: string, destId: string, payload: string, bytesSent: nat)

  /** From which node a sending socket has been connected, and to which address, as written. */
  datatype Connection = Connection(from: nat, remote: string)

  /** One turn of the send loop: the room in the socket, and what `Send` answers (an error if negative). */
  datatype Turn = Turn(available: nat, accepted: int)

  /** The loop goes no further: no room, or an error. */
  predicate Stops(t: Turn) {
    t.available == 0 || t.accepted < 0
  }

  /** What the socket takes in one turn: the bytes left are counted in 32 bits. */
  function TakenInTurn(sent: nat, size: nat, t: Turn): nat
    requires sent <= size && !Stops(t)
  {
    Min(Min((size - sent) % WORD, t.available), t.accepted)
  }

  lemma TurnFits(sent: nat, size: nat, t: Turn)
    requires sent <= size && !Stops(t)
    ensures sent + TakenInTurn(sent, size, t) <= size
    ensures size < WORD ==> TakenInTurn(sent, size, t) == Min(size - sent, Min(t.available, t.accepted))
  {
    assert (size - sent) % WORD <= size - sent;
  }

  /** The 32-bit counter. */
  function Wrap(n: nat): (r: nat)
    ensures r < WORD && (n < WORD ==> r == n)
    ensures r <= n
  {
    n % WORD
  }

  /** The send loop on the counter: where `sent` of `size` bytes get to. */
  function SentAfter(sent: nat, size: nat, turns: seq<Turn>): nat
    decreases |turns|
  {
    if sent >= size || turns == [] || Stops(turns[0]) then sent
    else SentAfter(Wrap(sent + TakenInTurn(sent, size, turns[0])), size, turns[1..])
  }

  /** The bytes that the socket is ready to take in the turns of one callback. */
  function Capacity(turns: seq<Turn>): nat {
    if turns == [] || Stops(turns[0]) then 0
    else Min(turns[0].available, turns[0].accepted) + Capacity(turns[1..])
  }

  /** The sum over some turns of what the socket takes in each. */
  function SumTaken(turns: seq<Turn>): int {
    if turns == [] then 0 else Min(turns[0].available, turns[0].accepted) + SumTaken(turns[1..])
  }

  /** The turns count up to the first one without room or with an error. */
  lemma {:induction false} CapacityIs(turns: seq<Turn>, k: nat)
    requires k <= |turns| && forall i :: 0 <= i < k ==> turns[i].available > 0 && turns[i].accepted >= 0
    requires k < |turns| ==> turns[k].available == 0 || turns[k].accepted < 0
    ensures Capacity(turns) == SumTaken(turns[..k])
    decreases k
  {
    if k > 0 {
      CapacityIs(turns[1..], k - 1);
      assert turns[..k][1..] == turns[1..][..k - 1];
    }
  }

  /** Below 4 GiB a callback sends all that the socket takes; from there on the counter never gets to the end. */
  lemma {:induction false} SentIsWhatFits(sent: nat, size: nat, turns: seq<Turn>)
    requires sent < WORD && sent <= size
    ensures size < WORD ==> SentAfter(sent, size, turns) == Min(size, sent + Capacity(turns))
    ensures size >= WORD ==> SentAfter(sent, size, turns) < WORD
    decreases |turns|
  {
    if sent < size && turns != [] && !Stops(turns[0]) {
      TurnFits(sent, size, turns[0]);
      SentIsWhatFits(Wrap(sent + TakenInTurn(sent, size, turns[0])), size, turns[1..]);
    }
  }

  /** The bytes written so far are the transfer's first `bytesSent`; nothing is claimed of 4 GiB and more. */
  predicate Carries(t: PendingTransfer, stream: string) {
    && t.bytesSent < WORD
    && (|t.payload| < WORD ==> t.bytesSent <= |t.payload| && stream == t.payload[..t.bytesSent])
  }

  lemma WholeStream(t: PendingTransfer, stream: string)
    requires Carries(t, stream) && t.bytesSent >= |t.payload|
    ensures |t.payload| < WORD && stream == t.payload
  {
  }

  predicate UnderWay(t: PendingTransfer, stream: string) {
    Carries(t, stream) && t.bytesSent < |t.payload|
  }

  lemma CarriesMore(t: PendingTransfer, stream: string, turn: Turn)
    requires Carries(t, stream) && t.bytesSent < |t.payload| && !Stops(turn)
    ensures var sent := TakenInTurn(t.bytesSent, |t.payload|, turn);
            && t.bytesSent + sent <= |t.payload|
            && Carries(t.(bytesSent := Wrap(t.bytesSent + sent)), stream + t.payload[t.bytesSent..t.bytesSent + sent])
  {
    TurnFits(t.bytesSent, |t.payload|, turn);
  }

  /**
    The send loop: as long as there is something left and room for it, offers the next bytes and counts
    those the socket took.
   */
  method WriteWhatFits(transfer: PendingTransfer, stream: string, turns: seq<Turn>)
    returns (after: PendingTransfer, written: string)
    requires Carries(transfer, stream)
    ensures after == transfer.(bytesSent := SentAfter(transfer.bytesSent, |transfer.payload|, turns))
    ensures Carries(after, written)
    ensures |transfer.payload| < WORD ==> stream <= written
    ensures |transfer.payload| < WORD ==> |written| == Min(|transfer.payload|, |stream| + Capacity(turns))
  {
    after, written := transfer, stream;
    var size := |transfer.payload|;
    var turn := 0;
    if size < WORD {
      SentIsWhatFits(transfer.bytesSent, size, turns);
    }
    while after.bytesSent < size && turn < |turns| && turns[turn].available > 0
      invariant turn <= |turns|
      invariant after == transfer.(bytesSent := after.bytesSent)
      invariant SentAfter(transfer.bytesSent, size, turns) == SentAfter(after.bytesSent, size, turns[turn..])
      invariant Carries(after, written)
      invariant size < WORD ==> stream <= written
      decreases |turns| - turn
    {
      assert turns[turn..][0] == turns[turn] && turns[turn..][1..] == turns[turn + 1..];
      var remaining := (size - after.bytesSent) % WORD;
      var toSend := Min(remaining, turns[turn].available);
      var sent := Min(toSend, turns[turn].accepted);
      if sent < 0 {
        return;
      }
      CarriesMore(after, written, turns[turn]);
      written := written + transfer.payload[after.bytesSent..after.bytesSent + sent];
      after := after.(bytesSent := Wrap(after.bytesSent + sent));
      turn := turn + 1;
    }
  }

  /** One call of the send callback. */
  datatype Writing = Writing(socket: int, turns: seq<Turn>)

  /** What a send callback does to the transfers under way: the one on its socket goes on, or is finished. */
  function AfterWriting(sends: map<int, PendingTransfer>, w: Writing): map<int, PendingTransfer> {
    if w.socket !in sends then sends
    else
      var t := sends[w.socket];
      var sent := SentAfter(t.bytesSent, |t.payload|, w.turns);
      if sent >= |t.payload| then sends - {w.socket} else sends[w.socket := t.(bytesSent := sent)]
  }

  function AfterWritings(sends: map<int, PendingTransfer>, ws: seq<Writing>): map<int, PendingTransfer>
    decreases |ws|
  {
    if ws == [] then sends else AfterWritings(AfterWriting(sends, ws[0]), ws[1..])
  }

  /** The bytes that `socket` is ready to take in all its callbacks. */
  function Offered(socket: int, ws: seq<Writing>): nat {
    if ws == [] then 0
    else (if ws[0].socket == socket then Capacity(ws[0].turns) else 0) + Offered(socket, ws[1..])
  }

  lemma {:induction false} FinishedStaysFinished(sends: map<int, PendingTransfer>, ws: seq<Writing>, socket: int)
    requires socket !in sends
    ensures socket !in AfterWritings(sends, ws)
    decreases |ws|
  {
    if ws != [] {
      FinishedStaysFinished(AfterWriting(sends, ws[0]), ws[1..], socket);
    }
  }

  /**
    Precisely when a transfer completes, over any sequence of send callbacks and whatever the other
    transfers do: its payload is shorter than 4 GiB, and its socket was ready to take what was left of it.
   */
  lemma {:induction false} TransferCompletesWhen(sends: map<int, PendingTransfer>, ws: seq<Writing>, socket: int)
    requires socket in sends && sends[socket].bytesSent < |sends[socket].payload| && sends[socket].bytesSent < WORD
    ensures socket !in AfterWritings(sends, ws)
       <==> && |sends[socket].payload| < 4294967296
            && sends[socket].bytesSent + Offered(socket, ws) >= |sends[socket].payload|
    decreases |ws|
  {
    if ws != [] {
      var t, next := sends[socket], AfterWriting(sends, ws[0]);
      SentIsWhatFits(t.bytesSent, |t.payload|, ws[0].turns);
      if socket in next {
        TransferCompletesWhen(next, ws[1..], socket);
      } else {
        FinishedStaysFinished(next, ws[1..], socket);
      }
    }
  }

  /** A payload on which the 32-bit counter fails, however much room there is. */
  lemma HugeTransferNeverCompletes(sends: map<int, PendingTransfer>, ws: seq<Writing>, socket: int)
    requires socket in sends && sends[socket] == PendingTransfer("host0", "host1", seq(WORD, _ => 'x'), 0)
    ensures socket in AfterWritings(sends, ws)
  {
    TransferCompletesWhen(sends, ws, socket);
  }

  // ---------------------------------------------------------------- receiving

  datatype ReceiveBuffer = ReceiveBuffer(srcId: string, destId: string, data: string)

  /** A message handed to the daemon, and the connection that had carried it. */
  datatype Posted = Posted(socket: int, srcId: string, destId: string, payload: string)

  /** A packet, with the address it came from. */
  datatype Packet = Packet(from: Ipv4, data: string)

  /** The packets that one callback reads: up to an empty one. */
  function Readable(packets: seq<Packet>): seq<Packet> {
    if packets == [] || packets[0].data == "" then []
    else [packets[0]] + Readable(packets[1..])
  }

  function AfterReadable(packets: seq<Packet>): seq<Packet> {
    if packets == [] then [] else if packets[0].data == "" then packets[1..] else AfterReadable(packets[1..])
  }

  function DataOf(packets: seq<Packet>): string {
    if packets == [] then "" else packets[0].data + DataOf(packets[1..])
  }

  lemma {:induction false} DataConcat(a: seq<Packet>, b: seq<Packet>)
    ensures DataOf(a + b) == DataOf(a) + DataOf(b)
  {
    if a == [] {
      assert a + b == b;
    } else {
      assert (a + b)[1..] == a[1..] + b;
      DataConcat(a[1..], b);
    }
  }

  /** No byte is lost: what a callback reads and what it leaves is all there was. */
  lemma {:induction false} ReadingSplits(packets: seq<Packet>)
    ensures DataOf(Readable(packets)) + DataOf(AfterReadable(packets)) == DataOf(packets)
  {
    if packets != [] {
      if packets[0].data == "" {
        assert "" + DataOf(packets[1..]) == DataOf(packets[1..]);
      } else {
        ReadingSplits(packets[1..]);
        assert ([packets[0]] + Readable(packets[1..]))[1..] == Readable(packets[1..]);
        Associative(packets[0].data, DataOf(Readable(packets[1..])), DataOf(AfterReadable(packets[1..])));
      }
    }
  }

  /** A callback reads the packets up to the first empty one, or all of them; it leaves those after that one. */
  lemma {:induction false} ReadingStopsAt(packets: seq<Packet>, k: nat)
    requires k <= |packets| && forall i :: 0 <= i < k ==> packets[i].data != ""
    requires k < |packets| ==> packets[k].data == ""
    ensures Readable(packets) == packets[..k]
    ensures AfterReadable(packets) == if k < |packets| then packets[k + 1..] else []
    decreases k
  {
    if k > 0 {
      ReadingStopsAt(packets[1..], k - 1);
      assert packets[..k] == [packets[0]] + packets[1..][..k - 1];
    }
  }

  /** The concatenation of the packets' bytes, one packet after the other. */
  lemma DataOfOneMore(packets: seq<Packet>, p: Packet)
    ensures DataOf(packets + [p]) == DataOf(packets) + p.data
  {
    DataConcat(packets, [p]);
    assert [p][1..] == [];
  }

  /** All packets of all pieces, one after the other. */
  function Joined(pieces: seq<seq<Packet>>): seq<Packet> {
    if pieces == [] then [] else pieces[0] + Joined(pieces[1..])
  }

  predicate NoneEmpty(pieces: seq<seq<Packet>>) {
    forall i, j :: 0 <= i < |pieces| && 0 <= j < |pieces[i]| ==> pieces[i][j].data != ""
  }

  /** When no packet is empty, everything that arrives is read. */
  lemma {:induction false} EverythingIsRead(pieces: seq<seq<Packet>>)
    requires NoneEmpty(pieces)
    ensures DataOfPieces(pieces) == DataOf(Joined(pieces))
  {
    if pieces != [] {
      assert forall i :: 0 <= i < |pieces[1..]| ==> pieces[1..][i] == pieces[i + 1];
      EverythingIsRead(pieces[1..]);
      ReadingStopsAt(pieces[0], |pieces[0]|);
      assert pieces[0][..|pieces[0]|] == pieces[0];
      DataConcat(pieces[0], Joined(pieces[1..]));
    }
  }

  /** The buffer that a first packet opens: the number in its sender's address names one end, the node the other. */
  function Opened(from: Ipv4, nodeId: nat): ReceiveBuffer {
    ReceiveBuffer(HostName(from.d - 1), HostName(nodeId), "")
  }

  /** What a connection has received after more packets: the data is appended, in a buffer opened for the first. */
  function Received(before: Option<ReceiveBuffer>, nodeId: nat, packets: seq<Packet>): Option<ReceiveBuffer> {
    if packets == [] then before
    else
      var buf := before.GetOr(Opened(packets[0].from, nodeId));
      Some(buf.(data := buf.data + DataOf(packets)))
  }

  lemma ReceivedOneMore(before: Option<ReceiveBuffer>, nodeId: nat, packets: seq<Packet>, p: Packet)
    ensures var buf := Received(before, nodeId, packets).GetOr(Opened(p.from, nodeId));
            Received(before, nodeId, packets + [p]) == Some(buf.(data := buf.data + p.data))
  {
    DataConcat(packets, [p]);
    assert DataOf([p]) == p.data by { assert [p][1..] == []; }
    if packets == [] {
      assert packets + [p] == [p];
    } else {
      var first := before.GetOr(Opened(packets[0].from, nodeId)).data;
      Associative(first, DataOf(packets), p.data);
    }
  }

  function PostOf(socket: int, buf: Option<ReceiveBuffer>): seq<Posted> {
    if buf.Some? then [Posted(socket, buf.value.srcId, buf.value.destId, buf.value.data)] else []
  }

  /** What a connection has received when its packets were read in several callbacks. */
  function ReceivedInPieces(before: Option<ReceiveBuffer>, nodeId: nat, pieces: seq<seq<Packet>>): Option<ReceiveBuffer>
    decreases |pieces|
  {
    if pieces == [] then before
    else ReceivedInPieces(Received(before, nodeId, Readable(pieces[0])), nodeId, pieces[1..])
  }

  /** The data of all pieces, in order. */
  function DataOfPieces(pieces: seq<seq<Packet>>): string {
    if pieces == [] then "" else DataOf(Readable(pieces[0])) + DataOfPieces(pieces[1..])
  }

  /** Every packet carries the address of its sender. */
  ghost predicate CameFrom(pieces: seq<seq<Packet>>, from: Ipv4) {
    forall i, j :: 0 <= i < |pieces| && 0 <= j < |pieces[i]| ==> pieces[i][j].from == from
  }

  /** However the bytes are cut into packets and callbacks, the buffer holds them all, between the same two hosts. */
  lemma {:induction false} PiecesAddUp(
    before: Option<ReceiveBuffer>, nodeId: nat, pieces: seq<seq<Packet>>, from: Ipv4)
    requires CameFrom(pieces, from)
    ensures ReceivedInPieces(before, nodeId, pieces)
         == if DataOfPieces(pieces) == "" then before
            else
              var buf := before.GetOr(Opened(from, nodeId));
              Some(buf.(data := buf.data + DataOfPieces(pieces)))
    decreases |pieces|
  {
    if pieces != [] {
      var packets, next := Readable(pieces[0]), Received(before, nodeId, Readable(pieces[0]));
      assert forall i :: 0 <= i < |pieces[1..]| ==> pieces[1..][i] == pieces[i + 1];
      PiecesAddUp(next, nodeId, pieces[1..], from);
      ReadableHasData(pieces[0]);
      if packets != [] {
        assert packets[0] == pieces[0][0];
        var buf := before.GetOr(Opened(from, nodeId));
        Associative(buf.data, DataOf(packets), DataOfPieces(pieces[1..]));
        assert buf.data + DataOf(packets) == buf.data + DataOf(packets) + "";
      } else {
        assert "" + DataOfPieces(pieces[1..]) == DataOfPieces(pieces[1..]);
      }
    }
  }

  lemma ReadableHasData(packets: seq<Packet>)
    ensures DataOf(Readable(packets)) == "" <==> Readable(packets) == []
  {
  }

  // ---------------------------------------------------------------- the whole trip

  /** What a connection posts when it has reached a node and closes: nothing, if it reached none. */
  function TripPosts(socket: int, at: Option<nat>, pieces: seq<seq<Packet>>): seq<Posted> {
    if at.Some? then PostOf(socket, ReceivedInPieces(None, at.value, pieces)) else []
  }

  /** The message went from node `from` to host `to`, and all of its payload arrived, in any pieces. */
  ghost predicate Travels(
    parse: string -> Ipv4, hosts: nat, entry: MessageEntry, from: nat, to: int, pieces: seq<seq<Packet>>)
  {
    && ReadsAddresses(parse) && entry.Exists()
    && NodeOf(entry.source, hosts) == Some(from) && IndexOf(entry.destination) == Some(to)
    && CameFrom(pieces, parse(AddressText(from))) && DataOfPieces(pieces) == entry.payloadObj
  }

  /** In particular: all the packets, none of them empty, make up the payload. */
  lemma TravelsInPackets(
    parse: string -> Ipv4, hosts: nat, entry: MessageEntry, from: nat, to: int, pieces: seq<seq<Packet>>)
    requires ReadsAddresses(parse) && entry.Exists()
    requires NodeOf(entry.source, hosts) == Some(from) && IndexOf(entry.destination) == Some(to)
    requires CameFrom(pieces, parse(AddressText(from))) && NoneEmpty(pieces)
    ensures Travels(parse, hosts, entry, from, to, pieces) <==> DataOf(Joined(pieces)) == entry.payloadObj
  {
    EverythingIsRead(pieces);
  }

  /** Wherever the network takes the connection, exactly the message that was fetched is posted. */
  ghost predicate AlwaysPosted(
    parse: string -> Ipv4, hosts: nat, entry: MessageEntry, from: nat, to: int,
    socket: int, pieces: seq<seq<Packet>>)
  {
    forall at :: Lands(parse, hosts, from, to, at) ==>
      TripPosts(socket, at, pieces) == [Posted(socket, entry.source, entry.destination, entry.payloadObj)]
  }

  lemma TripPostsAre(
    parse: string -> Ipv4, hosts: nat, entry: MessageEntry, from: nat, to: int,
    socket: int, pieces: seq<seq<Packet>>, at: Option<nat>)
    requires Travels(parse, hosts, entry, from, to, pieces)
    ensures TripPosts(socket, at, pieces) == [Posted(socket, entry.source, entry.destination, entry.payloadObj)]
       <==> && at.Some?
            && SenderOf(parse(AddressText(from))) == Some(entry.source) && HostName(at.value) == entry.destination
  {
    var ip := parse(AddressText(from));
    SenderIsLastOctet(ip);
    if at.Some? {
      WholePayloadAssembled(at.value, pieces, ip, entry.payloadObj);
    }
  }

  lemma WholePayloadAssembled(nodeId: nat, pieces: seq<seq<Packet>>, from: Ipv4, payload: string)
    requires CameFrom(pieces, from) && DataOfPieces(pieces) == payload != ""
    ensures ReceivedInPieces(None, nodeId, pieces)
         == Some(ReceiveBuffer(HostName(from.d - 1), HostName(nodeId), payload))
  {
    PiecesAddUp(None, nodeId, pieces, from);
    assert "" + payload == payload;
  }

  /**
    Precisely when the message posted is the one that was fetched, over all networks and however the
    simulator reads addresses: both identifiers are canonical, the source's node is below 254, so that its
    address is a host's and keeps its number, and the destination is a simulated host with an address of
    its own.
   */
  lemma TripPostsWhatWasFetched(
    parse: string -> Ipv4, hosts: nat, entry: MessageEntry, from: nat, to: int,
    socket: int, pieces: seq<seq<Packet>>)
    requires hosts <= 0x8000_0000 && Travels(parse, hosts, entry, from, to, pieces)
    ensures AlwaysPosted(parse, hosts, entry, from, to, socket, pieces)
       <==> && Canonical(entry.source[4..]) && Canonical(entry.destination[4..])
            && from <= 253 && to < hosts && HasOwnAddress(parse, hosts, to)
  {
    SourceSurvivesWhen(parse, entry.source);
    if from <= 254 {
      AddressIsRead(parse, from);
    }
    if && Canonical(entry.source[4..]) && Canonical(entry.destination[4..])
       && from <= 253 && to < hosts && HasOwnAddress(parse, hosts, to) {
      CanonicalIsNatural(entry.destination);
      HostNameRoundTripWhen(entry.destination);
      forall at | Lands(parse, hosts, from, to, at)
        ensures TripPosts(socket, at, pieces) == [Posted(socket, entry.source, entry.destination, entry.payloadObj)]
      {
        LandsAt(parse, hosts, from, to, at);
        TripPostsAre(parse, hosts, entry, from, to, socket, pieces, at);
      }
    }
    if AlwaysPosted(parse, hosts, entry, from, to, socket, pieces) {
      PostedOnlyWhen(parse, hosts, entry, from, to, socket, pieces);
    }
  }

  lemma PostedOnlyWhen(
    parse: string -> Ipv4, hosts: nat, entry: MessageEntry, from: nat, to: int,
    socket: int, pieces: seq<seq<Packet>>)
    requires hosts <= 0x8000_0000 && Travels(parse, hosts, entry, from, to, pieces)
    requires AlwaysPosted(parse, hosts, entry, from, to, socket, pieces)
    ensures SenderOf(parse(AddressText(from))) == Some(entry.source)
    ensures Canonical(entry.destination[4..]) && to < hosts && HasOwnAddress(parse, hosts, to)
    ensures parse(AddressText(from)) != BROADCAST
  {
    forall at | Lands(parse, hosts, from, to, at)
      ensures at == Some(to) && HostName(to) == entry.destination
      ensures SenderOf(parse(AddressText(from))) == Some(entry.source)
    {
      TripPostsAre(parse, hosts, entry, from, to, socket, pieces, at);
      HostsAreNamed(at.value);
    }
    var at := SomeLanding(parse, hosts, from, to);
    assert at == Some(to);
    HostNameRoundTripWhen(entry.destination);
    OwnAddressIfAlwaysReached(parse, hosts, from, to);
  }

  /**
    With no more hosts than the subnet has addresses, `host0` to `host253`, that is when both identifiers
    are canonical and the destination is one of the hosts.
   */
  lemma SmallNetworksDeliverWhen(
    parse: string -> Ipv4, hosts: nat, entry: MessageEntry, from: nat, to: int,
    socket: int, pieces: seq<seq<Packet>>)
    requires hosts <= 254 && Travels(parse, hosts, entry, from, to, pieces)
    ensures AlwaysPosted(parse, hosts, entry, from, to, socket, pieces)
       <==> Canonical(entry.source[4..]) && Canonical(entry.destination[4..]) && to < hosts
  {
    TripPostsWhatWasFetched(parse, hosts, entry, from, to, socket, pieces);
    if Canonical(entry.destination[4..]) && to < hosts {
      CanonicalIsNatural(entry.destination);
      SmallNetworksHaveOwnAddresses(parse, hosts, to);
    }
  }

  /**
    In a larger network a canonical name is not enough: wherever the connection of `host254` or a later host
    may land, its message is posted under another name or not at all.
   */
  lemma LateHostsAreNotDelivered(
    parse: string -> Ipv4, hosts: nat, entry: MessageEntry, from: nat, to: int,
    socket: int, pieces: seq<seq<Packet>>, at: Option<nat>)
    requires Travels(parse, hosts, entry, from, to, pieces) && from >= 254
    requires Lands(parse, hosts, from, to, at)
    ensures TripPosts(socket, at, pieces) != [Posted(socket, entry.source, entry.destination, entry.payloadObj)]
  {
    TripPostsAre(parse, hosts, entry, from, to, socket, pieces, at);
    SourceSurvivesWhen(parse, entry.source);
    if from == 254 {
      AddressIsRead(parse, 254);
    }
  }

  /** Such a message: from `host256` to `host1` among 300 hosts, both with canonical names. */
  lemma LateHostExists(parse: string -> Ipv4, payload: string, pieces: seq<seq<Packet>>)
    requires payload != "" && ReadsAddresses(parse)
    requires CameFrom(pieces, parse(AddressText(256))) && DataOfPieces(pieces) == payload
    ensures Travels(parse, 300, MessageEntry(HostName(256), HostName(1), payload, |payload|), 256, 1, pieces)
    ensures Canonical(HostName(256)[4..]) && Canonical(HostName(1)[4..])
  {
    HostsAreNamed(256);
    HostsAreNamed(1);
    HostNameRoundTripWhen(HostName(256));
    HostNameRoundTripWhen(HostName(1));
  }

  // ---------------------------------------------------------------- runs of receive and close callbacks

  datatype Callback =
    | Arrival(socket: int, nodeId: nat, packets: seq<Packet>)
    | Closing(socket: int)

  /** The connections being received, and everything posted to the daemon. */
  datatype Receiver = Receiver(buffers: map<int, ReceiveBuffer>, posts: seq<Posted>) {

    function Buffer(socket: int): Option<ReceiveBuffer> {
      if socket in buffers then Some(buffers[socket]) else None
    }

    function With(socket: int, buf: Option<ReceiveBuffer>): Receiver {
      this.(buffers := if buf.Some? then buffers[socket := buf.value] else buffers - {socket})
    }
  }

  /** One callback: packets are taken in, or what has arrived is posted. */
  function Handled(r: Receiver, cb: Callback): Receiver {
    match cb
    case Arrival(socket, nodeId, packets) =>
      r.With(socket, Received(r.Buffer(socket), nodeId, Readable(packets)))
    case Closing(socket) =>
      r.With(socket, None).(posts := r.posts + PostOf(socket, r.Buffer(socket)))
  }

  function AfterAll(r: Receiver, cbs: seq<Callback>): Receiver
    decreases |cbs|
  {
    if cbs == [] then r else AfterAll(Handled(r, cbs[0]), cbs[1..])
  }

  lemma {:induction false} AfterAllConcat(r: Receiver, a: seq<Callback>, b: seq<Callback>)
    ensures AfterAll(r, a + b) == AfterAll(AfterAll(r, a), b)
    decreases |a|
  {
    if a == [] {
      assert a + b == b;
    } else {
      assert (a + b)[0] == a[0] && (a + b)[1..] == a[1..] + b;
      AfterAllConcat(Handled(r, a[0]), a[1..], b);
    }
  }

  /** What was posted for one connection. */
  function PostsOn(socket: int, posts: seq<Posted>): seq<Posted> {
    if posts == [] then []
    else (if posts[0].socket == socket then [posts[0]] else []) + PostsOn(socket, posts[1..])
  }

  lemma {:induction false} PostsOnConcat(socket: int, a: seq<Posted>, b: seq<Posted>)
    ensures PostsOn(socket, a + b) == PostsOn(socket, a) + PostsOn(socket, b)
  {
    if a == [] {
      assert a + b == b;
    } else {
      assert (a + b)[1..] == a[1..] + b;
      PostsOnConcat(socket, a[1..], b);
      var first := if a[0].socket == socket then [a[0]] else [];
      Associative(first, PostsOn(socket, a[1..]), PostsOn(socket, b));
    }
  }

  lemma PostsOfOne(socket: int, other: int, buf: Option<ReceiveBuffer>)
    ensures PostsOn(socket, PostOf(other, buf)) == if other == socket then PostOf(socket, buf) else []
  {
    var posts := PostOf(other, buf);
    assert posts != [] ==> posts[1..] == [];
  }

  /** The callbacks of one connection. */
  function OnSocket(socket: int, cbs: seq<Callback>): seq<Callback> {
    if cbs == [] then []
    else (if cbs[0].socket == socket then [cbs[0]] else []) + OnSocket(socket, cbs[1..])
  }

  /** A callback on another connection changes neither the buffer nor the posts of this one. */
  lemma HandledElsewhere(socket: int, r: Receiver, cb: Callback)
    ensures cb.socket != socket ==>
              Handled(r, cb).Buffer(socket) == r.Buffer(socket)
              && PostsOn(socket, Handled(r, cb).posts) == PostsOn(socket, r.posts)
    ensures cb == Closing(socket) ==>
              Handled(r, cb).Buffer(socket) == None
              && PostsOn(socket, Handled(r, cb).posts) == PostsOn(socket, r.posts) + PostOf(socket, r.Buffer(socket))
  {
    if cb.Closing? {
      PostsOnConcat(socket, r.posts, PostOf(cb.socket, r.Buffer(cb.socket)));
      PostsOfOne(socket, cb.socket, r.Buffer(cb.socket));
      assert PostsOn(socket, r.posts) + [] == PostsOn(socket, r.posts);
    }
  }

  /** Connections do not interfere: what is posted for one depends on its own callbacks alone. */
  lemma {:induction false} ConnectionsDoNotInterfere(socket: int, r1: Receiver, r2: Receiver, cbs: seq<Callback>)
    requires r1.Buffer(socket) == r2.Buffer(socket) && PostsOn(socket, r1.posts) == PostsOn(socket, r2.posts)
    ensures var s1, s2 := AfterAll(r1, cbs), AfterAll(r2, OnSocket(socket, cbs));
            s1.Buffer(socket) == s2.Buffer(socket) && PostsOn(socket, s1.posts) == PostsOn(socket, s2.posts)
    decreases |cbs|
  {
    if cbs != [] {
      var cb, rest := cbs[0], cbs[1..];
      HandledElsewhere(socket, r1, cb);
      HandledElsewhere(socket, r2, cb);
      if cb.socket == socket {
        ConnectionsDoNotInterfere(socket, Handled(r1, cb), Handled(r2, cb), rest);
        assert OnSocket(socket, cbs)[1..] == OnSocket(socket, rest);
      } else {
        ConnectionsDoNotInterfere(socket, Handled(r1, cb), r2, rest);
        assert OnSocket(socket, cbs) == OnSocket(socket, rest);
      }
    }
  }

  /** The packets that callbacks find on one connection. */
  function PiecesOn(socket: int, cbs: seq<Callback>): seq<seq<Packet>> {
    if cbs == [] then []
    else
      (if cbs[0].Arrival? && cbs[0].socket == socket then [cbs[0].packets] else [])
      + PiecesOn(socket, cbs[1..])
  }

  function DataOn(socket: int, cbs: seq<Callback>): string {
    DataOfPieces(PiecesOn(socket, cbs))
  }

  /** The connection belongs to node `nodeId`, and `from` is at its other end. */
  ghost predicate Connects(socket: int, nodeId: nat, from: Ipv4, cbs: seq<Callback>) {
    forall i :: 0 <= i < |cbs| && cbs[i].socket == socket && cbs[i].Arrival? ==>
      cbs[i].nodeId == nodeId && forall j :: 0 <= j < |cbs[i].packets| ==> cbs[i].packets[j].from == from
  }

  /** What a connection with these names has got together when `data` has arrived. */
  function Assembled(from: Ipv4, nodeId: nat, data: string): Option<ReceiveBuffer> {
    if data == "" then None else Some(Opened(from, nodeId).(data := data))
  }

  lemma PieceArrives(socket: int, nodeId: nat, from: Ipv4, data: string, packets: seq<Packet>)
    requires forall j :: 0 <= j < |packets| ==> packets[j].from == from
    ensures Received(Assembled(from, nodeId, data), nodeId, Readable(packets))
         == Assembled(from, nodeId, data + DataOf(Readable(packets)))
  {
    ReadableHasData(packets);
    if Readable(packets) == [] {
      assert data + "" == data;
    } else {
      assert Readable(packets)[0] == packets[0];
      if data == "" {
        assert "" + DataOf(Readable(packets)) == DataOf(Readable(packets));
      }
    }
  }

  lemma {:induction false} DataOnFirst(socket: int, cbs: seq<Callback>)
    requires cbs != []
    ensures DataOn(socket, cbs)
         == (if cbs[0].Arrival? && cbs[0].socket == socket then DataOf(Readable(cbs[0].packets)) else "")
            + DataOn(socket, cbs[1..])
  {
    if cbs[0].Arrival? && cbs[0].socket == socket {
      assert PiecesOn(socket, cbs)[1..] == PiecesOn(socket, cbs[1..]);
    } else {
      assert PiecesOn(socket, cbs) == PiecesOn(socket, cbs[1..]);
    }
  }

  lemma ConnectsTail(socket: int, nodeId: nat, from: Ipv4, cbs: seq<Callback>)
    requires cbs != [] && Connects(socket, nodeId, from, cbs)
    ensures Connects(socket, nodeId, from, cbs[1..])
  {
    assert forall i :: 0 <= i < |cbs[1..]| ==> cbs[1..][i] == cbs[i + 1];
  }

  /** Until it closes, a connection collects its data and posts nothing. */
  lemma {:induction false} OpenConnectionCollects(
    socket: int, nodeId: nat, from: Ipv4, data: string, r: Receiver, cbs: seq<Callback>)
    requires Connects(socket, nodeId, from, cbs) && Closing(socket) !in cbs
    requires r.Buffer(socket) == Assembled(from, nodeId, data)
    ensures var r' := AfterAll(r, cbs);
            && r'.Buffer(socket) == Assembled(from, nodeId, data + DataOn(socket, cbs))
            && PostsOn(socket, r'.posts) == PostsOn(socket, r.posts)
    decreases |cbs|
  {
    if cbs == [] {
      assert data + "" == data;
    } else {
      var cb, next := cbs[0], Handled(r, cbs[0]);
      assert cb in cbs;
      ConnectsTail(socket, nodeId, from, cbs);
      HandledElsewhere(socket, r, cb);
      DataOnFirst(socket, cbs);
      var more := if cb.Arrival? && cb.socket == socket then DataOf(Readable(cb.packets)) else "";
      if cb.socket == socket {
        PieceArrives(socket, nodeId, from, data, cb.packets);
      } else {
        assert data + "" == data;
      }
      OpenConnectionCollects(socket, nodeId, from, data + more, next, cbs[1..]);
      Associative(data, more, DataOn(socket, cbs[1..]));
    }
  }

  /** A connection on which nothing arrives any more posts nothing any more, however often it is closed. */
  lemma {:induction false} QuietConnectionPostsNothing(socket: int, r: Receiver, cbs: seq<Callback>)
    requires r.Buffer(socket) == None && DataOn(socket, cbs) == ""
    ensures PostsOn(socket, AfterAll(r, cbs).posts) == PostsOn(socket, r.posts)
    decreases |cbs|
  {
    if cbs != [] {
      var cb := cbs[0];
      HandledElsewhere(socket, r, cb);
      DataOnFirst(socket, cbs);
      if cb.socket == socket && cb.Arrival? {
        ReadableHasData(cb.packets);
      } else if cb.socket == socket {
        assert PostsOn(socket, r.posts) + [] == PostsOn(socket, r.posts);
      }
      QuietConnectionPostsNothing(socket, Handled(r, cb), cbs[1..]);
    }
  }

  /** Posts are never taken back. */
  lemma {:induction false} PostsOnlyGrow(socket: int, r: Receiver, cbs: seq<Callback>)
    ensures PostsOn(socket, r.posts) <= PostsOn(socket, AfterAll(r, cbs).posts)
    decreases |cbs|
  {
    if cbs != [] {
      HandledElsewhere(socket, r, cbs[0]);
      PostsOnlyGrow(socket, Handled(r, cbs[0]), cbs[1..]);
    }
  }

  /**
    Over any run of callbacks, other connections in between: a connection that carried data posts it at
    its first close, and its posts are exactly all of its data, once, if and only if nothing arrives
    after that close.
   */
  lemma PostedOnceWhen(
    socket: int, nodeId: nat, from: Ipv4, r: Receiver, before: seq<Callback>, after: seq<Callback>)
    requires r.Buffer(socket) == None && PostsOn(socket, r.posts) == []
    requires Connects(socket, nodeId, from, before) && Closing(socket) !in before && DataOn(socket, before) != ""
    ensures PostsOn(socket, AfterAll(r, before).posts) == []
    ensures PostsOn(socket, AfterAll(r, before + [Closing(socket)]).posts)
         == [Posted(socket, HostName(from.d - 1), HostName(nodeId), DataOn(socket, before))]
    ensures PostsOn(socket, AfterAll(r, before + [Closing(socket)] + after).posts)
              == [Posted(socket, HostName(from.d - 1), HostName(nodeId),
                         DataOn(socket, before) + DataOn(socket, after))]
       <==> DataOn(socket, after) == ""
  {
    var closed := AfterAll(r, before + [Closing(socket)]);
    PostedAtFirstClose(socket, nodeId, from, r, before);
    AfterAllConcat(r, before + [Closing(socket)], after);
    if DataOn(socket, after) == "" {
      QuietConnectionPostsNothing(socket, closed, after);
      assert DataOn(socket, before) + "" == DataOn(socket, before);
    } else {
      PostsOnlyGrow(socket, closed, after);
      LongerDiffers(DataOn(socket, before), DataOn(socket, after));
      var all := AfterAll(r, before + [Closing(socket)] + after);
      assert PostsOn(socket, all.posts)[0] == PostsOn(socket, closed.posts)[0];
    }
  }

  lemma LongerDiffers(a: string, b: string)
    requires b != ""
    ensures a + b != a
  {
    assert |a + b| > |a|;
  }

  lemma PostedAtFirstClose(socket: int, nodeId: nat, from: Ipv4, r: Receiver, before: seq<Callback>)
    requires r.Buffer(socket) == None && PostsOn(socket, r.posts) == []
    requires Connects(socket, nodeId, from, before) && Closing(socket) !in before && DataOn(socket, before) != ""
    ensures PostsOn(socket, AfterAll(r, before).posts) == []
    ensures var closed := AfterAll(r, before + [Closing(socket)]);
            && closed.Buffer(socket) == None
            && PostsOn(socket, closed.posts)
               == [Posted(socket, HostName(from.d - 1), HostName(nodeId), DataOn(socket, before))]
  {
    var open := AfterAll(r, before);
    OpenConnectionCollects(socket, nodeId, from, "", r, before);
    assert "" + DataOn(socket, before) == DataOn(socket, before);
    AfterAllConcat(r, before, [Closing(socket)]);
    HandledElsewhere(socket, open, Closing(socket));
    assert [Closing(socket)][1..] == [];
  }

  /**
    The same said of the packets themselves, when none of them is empty: the first close posts the
    concatenation of all packets that came before it, and that is all there is to post if and only if no
    packet comes after it.
   */
  lemma AllPacketsPostedOnceWhen(
    socket: int, nodeId: nat, from: Ipv4, r: Receiver, before: seq<Callback>, after: seq<Callback>)
    requires r.Buffer(socket) == None && PostsOn(socket, r.posts) == []
    requires Connects(socket, nodeId, from, before) && Closing(socket) !in before
    requires NoneEmpty(PiecesOn(socket, before)) && NoneEmpty(PiecesOn(socket, after))
    requires Joined(PiecesOn(socket, before)) != []
    ensures PostsOn(socket, AfterAll(r, before + [Closing(socket)]).posts)
         == [Posted(socket, HostName(from.d - 1), HostName(nodeId), DataOf(Joined(PiecesOn(socket, before))))]
    ensures PostsOn(socket, AfterAll(r, before + [Closing(socket)] + after).posts)
              == [Posted(socket, HostName(from.d - 1), HostName(nodeId),
                         DataOf(Joined(PiecesOn(socket, before)) + Joined(PiecesOn(socket, after))))]
       <==> Joined(PiecesOn(socket, after)) == []
  {
    EverythingIsRead(PiecesOn(socket, before));
    EverythingIsRead(PiecesOn(socket, after));
    PacketsHaveData(PiecesOn(socket, before));
    PacketsHaveData(PiecesOn(socket, after));
    PostedOnceWhen(socket, nodeId, from, r, before, after);
    DataConcat(Joined(PiecesOn(socket, before)), Joined(PiecesOn(socket, after)));
  }

  lemma {:induction false} PacketsHaveData(pieces: seq<seq<Packet>>)
    requires NoneEmpty(pieces)
    ensures DataOf(Joined(pieces)) == "" <==> Joined(pieces) == []
  {
    if pieces != [] {
      assert forall i :: 0 <= i < |pieces[1..]| ==> pieces[1..][i] == pieces[i + 1];
      PacketsHaveData(pieces[1..]);
      DataConcat(pieces[0], Joined(pieces[1..]));
      if pieces[0] != [] {
        assert pieces[0][0].data != "" && DataOf(pieces[0]) != "";
      } else {
        assert Joined(pieces) == Joined(pieces[1..]);
      }
    }
  }

  lemma {:induction false} PiecesComeFrom(socket: int, nodeId: nat, from: Ipv4, cbs: seq<Callback>)
    requires Connects(socket, nodeId, from, cbs)
    ensures CameFrom(PiecesOn(socket, cbs), from)
    decreases |cbs|
  {
    if cbs != [] {
      ConnectsTail(socket, nodeId, from, cbs);
      PiecesComeFrom(socket, nodeId, from, cbs[1..]);
      var rest := PiecesOn(socket, cbs[1..]);
      if cbs[0].Arrival? && cbs[0].socket == socket {
        var pieces := [cbs[0].packets] + rest;
        assert forall i :: 0 < i < |pieces| ==> pieces[i] == rest[i - 1];
      } else {
        assert PiecesOn(socket, cbs) == rest;
      }
    }
  }

  /** So a connection that carried data and then stays silent posts, in any run, what its trip posts. */
  lemma RunPostsTheTrip(
    socket: int, nodeId: nat, from: Ipv4, r: Receiver, before: seq<Callback>, after: seq<Callback>)
    requires r.Buffer(socket) == None && PostsOn(socket, r.posts) == []
    requires Connects(socket, nodeId, from, before) && Closing(socket) !in before && DataOn(socket, before) != ""
    requires DataOn(socket, after) == ""
    ensures PostsOn(socket, AfterAll(r, before + [Closing(socket)] + after).posts)
         == TripPosts(socket, Some(nodeId), PiecesOn(socket, before))
  {
    PostedOnceWhen(socket, nodeId, from, r, before, after);
    PiecesComeFrom(socket, nodeId, from, before);
    WholePayloadAssembled(nodeId, PiecesOn(socket, before), from, DataOn(socket, before));
    assert DataOn(socket, before) + "" == DataOn(socket, before);
  }

  // ---------------------------------------------------------------- the bridge

  class TcpBridge {
    /** The number of simulated hosts. */
    const hosts: nat
    var activeSends: map<int, PendingTransfer>
    var activeReceives: map<int, ReceiveBuffer>
    /** Where each sending socket has been connected. */
    var connections: map<int, Connection>
    /** The bytes each sending socket has accepted. */
    var streams: map<int, string>
    /** Everything posted to the daemon. */
    var posts: seq<Posted>
    /** The transfers whose sending socket has been closed after the last byte. */
    ghost var finished: map<int, PendingTransfer>

    ghost predicate Valid()
      reads this
    {
      && activeSends.Keys !! finished.Keys
      && streams.Keys == connections.Keys == activeSends.Keys + finished.Keys
      && (forall s :: s in activeSends ==> UnderWay(activeSends[s], streams[s]))
      && (forall s :: s in finished ==> streams[s] == finished[s].payload && |finished[s].payload| < WORD)
    }

    function Receiving(): Receiver
      reads this
    {
      Receiver(activeReceives, posts)
    }

    constructor (hosts: nat)
      ensures Valid() && this.hosts == hosts && activeSends == map[] && Receiving() == Receiver(map[], [])
    {
      this.hosts := hosts;
      activeSends, activeReceives, connections, streams, posts, finished := map[], map[], map[], map[], [], map[];
    }

    /**
      A fetched message gets a connection of its own, from the node its source names to the address made
      of its destination's number, if both have one and the connection comes up. Whether the destination
      is a simulated host is not asked.
     */
    method StartTransfer(entry: MessageEntry, socket: int, connects: bool, turns: seq<Turn>) returns (started: bool)
      requires Valid() && entry.Exists() && socket !in streams
      modifies this`activeSends, this`connections, this`streams, this`finished
      ensures Valid()
      ensures started <==> connects && NodeOf(entry.source, hosts).Some? && IndexOf(entry.destination).Some?
      ensures !started ==>
                activeSends == old(activeSends) && streams == old(streams)
                && connections == old(connections) && finished == old(finished)
      ensures started ==> Progress(socket, PendingTransfer(entry.source, entry.destination, entry.payloadObj, 0))
      ensures started ==>
                var t := PendingTransfer(entry.source, entry.destination, entry.payloadObj, 0);
                activeSends == AfterWriting(old(activeSends)[socket := t], Writing(socket, turns))
      ensures started ==>
                var from, to := NodeOf(entry.source, hosts).value, IndexOf(entry.destination).value;
                connections == old(connections)[socket := Connection(from, AddressText(to))]
      ensures streams - {socket} == old(streams) - {socket}
    {
      var destIndex, srcNode := IndexOf(entry.destination), NodeOf(entry.source, hosts);
      started := connects && destIndex.Some? && srcNode.Some?;
      if started {
        var destIpStr := AddressText(destIndex.value);
        connections := connections[socket := Connection(srcNode.value, destIpStr)];
        activeSends := activeSends[socket := PendingTransfer(entry.source, entry.destination, entry.payloadObj, 0)];
        streams := streams[socket := ""];
        WriteUntilBufferFull(socket, turns);
      }
    }

    /** The transfer on `socket` is the one that was `t`: still under way, or finished with its whole payload. */
    predicate Progress(socket: int, t: PendingTransfer)
      reads this
    {
      if socket in activeSends
      then activeSends[socket] == t.(bytesSent := activeSends[socket].bytesSent)
      else socket in streams && streams[socket] == t.payload && |t.payload| < WORD
    }

    /** Putting back what the send loop left of one transfer keeps the others. */
    method Record(socket: int, transfer: PendingTransfer, stream: string)
      requires Valid() && socket in activeSends && Carries(transfer, stream)
      modifies this`activeSends, this`streams, this`finished
      ensures Valid()
      ensures activeSends == if transfer.bytesSent >= |transfer.payload|
                             then old(activeSends) - {socket} else old(activeSends)[socket := transfer]
      ensures streams == old(streams)[socket := stream]
    {
      streams := streams[socket := stream];
      if transfer.bytesSent >= |transfer.payload| {
        WholeStream(transfer, stream);
        activeSends := activeSends - {socket};
        finished := finished[socket := transfer];
      } else {
        activeSends := activeSends[socket := transfer];
      }
    }

    /**
      The send callback. For a transfer under way it writes what fits, remembers how far it got, and
      closes the connection after the last byte; it never touches another transfer.
     */
    method WriteUntilBufferFull(socket: int, turns: seq<Turn>)
      requires Valid()
      modifies this`activeSends, this`streams, this`finished
      ensures Valid()
      ensures activeSends == AfterWriting(old(activeSends), Writing(socket, turns))
      ensures socket !in old(activeSends) ==> streams == old(streams) && finished == old(finished)
      ensures socket in old(activeSends) ==> Progress(socket, old(activeSends[socket]))
      ensures socket in old(activeSends) && |old(activeSends[socket]).payload| < WORD ==>
                && old(streams[socket]) <= streams[socket]
                && |streams[socket]|
                   == Min(|old(activeSends[socket]).payload|, |old(streams[socket])| + Capacity(turns))
      ensures streams - {socket} == old(streams) - {socket}
    {
      if socket !in activeSends {
        return;
      }
      var transfer, stream := WriteWhatFits(activeSends[socket], streams[socket], turns);
      if transfer.bytesSent >= |transfer.payload| {
        WholeStream(transfer, stream);
      }
      Record(socket, transfer, stream);
    }

    /** The receive callback: takes in the packets it can read, and returns those it leaves for the next one. */
    method TcpReceiveCallback(socket: int, nodeId: nat, packets: seq<Packet>) returns (rest: seq<Packet>)
      modifies this`activeReceives
      ensures Receiving() == Handled(old(Receiving()), Arrival(socket, nodeId, packets))
      ensures rest == AfterReadable(packets)
    {
      rest := packets;
      ghost var start := Receiving();
      ghost var read: seq<Packet> := [];
      while rest != []
        invariant Readable(packets) == read + Readable(rest) && AfterReadable(packets) == AfterReadable(rest)
        invariant Receiving() == start.With(socket, Received(start.Buffer(socket), nodeId, read))
        decreases |rest|
      {
        var packet := rest[0];
        rest := rest[1..];
        if packet.data == "" {
          assert Readable(packets) == read;
          return;
        }
        TakeIn(socket, nodeId, packet);
        ReceivedOneMore(start.Buffer(socket), nodeId, read, packet);
        Associative(read, [packet], Readable(rest));
        read := read + [packet];
      }
      assert Readable(packets) == read;
    }

    /** One packet: the first of a connection opens its buffer, reading the sender's number off its address. */
    method TakeIn(socket: int, nodeId: nat, packet: Packet)
      modifies this`activeReceives
      ensures var buf := old(Receiving()).Buffer(socket).GetOr(Opened(packet.from, nodeId));
              Receiving() == old(Receiving()).With(socket, Some(buf.(data := buf.data + packet.data)))
    {
      if socket !in activeReceives {
        var srcId := ReadSender(packet.from);
        activeReceives := activeReceives[socket := ReceiveBuffer(srcId, HostName(nodeId), "")];
      }
      var buf := activeReceives[socket];
      activeReceives := activeReceives[socket := buf.(data := buf.data + packet.data)];
    }

    /** The sender's identifier, read off its address: the last dot is always found, and a number after it. */
    method ReadSender(from: Ipv4) returns (srcId: string)
      ensures srcId == HostName(from.d - 1)
    {
      SenderIsLastOctet(from);
      srcId := SenderOf(from).value;
    }

    /** The close callback posts what has arrived: a connection without data, or already closed, posts nothing. */
    method TcpCloseCallback(socket: int)
      modifies this`activeReceives, this`posts
      ensures Receiving() == Handled(old(Receiving()), Closing(socket))
    {
      if socket !in activeReceives {
        return;
      }
      var buf := activeReceives[socket];
      posts := posts + [Posted(socket, buf.srcId, buf.destId, buf.data)];
      activeReceives := activeReceives - {socket};
    }
  }
}
