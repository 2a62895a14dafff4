/**
  The frame in which the OMNeT++ application carries a fetched message through the simulated network:
  two identifiers, each behind a 16-bit length, and then the payload to the end of the packet.
 */
module Frames {

  /** A byte of a `std::string`. */
  type Octet = c: char | c as int < 0x100

  type Octets = seq<Octet>

  const LENGTH_LIMIT := 0x1_0000

  // ---------------------------------------------------------------- specification

  /** A `uint16_t` as it lies in memory, low byte first. */
  function LengthField(n: nat): Octets
    requires n < LENGTH_LIMIT
  {
    [(n % 0x100) as char, (n / 0x100) as char]
  }

  function FieldValue(b: Octets): (n: nat)
    requires |b| == 2
    ensures n < LENGTH_LIMIT
  {
    b[0] as int + 0x100 * (b[1] as int)
  }

  /** What the writer puts out: assigning a size to a `uint16_t` drops its high bits. */
  function Frame(src: Octets, dest: Octets, payload: Octets): Octets {
    LengthField(|src| % LENGTH_LIMIT) + src[..|src| % LENGTH_LIMIT]
    + (LengthField(|dest| % LENGTH_LIMIT) + dest[..|dest| % LENGTH_LIMIT] + payload)
  }

  datatype Parts = Parts(src: Octets, dest: Octets, payload: Octets)

  /** One `[length][bytes]` field and the remainder, when the packet holds all of it. */
  predicate HasField(s: Octets) {
    |s| >= 2 && |s| >= 2 + FieldValue(s[..2])
  }

  function FieldOf(s: Octets): Octets
    requires HasField(s)
  {
    s[2..2 + FieldValue(s[..2])]
  }

  function AfterField(s: Octets): Octets
    requires HasField(s)
  {
    s[2 + FieldValue(s[..2])..]
  }

  /** A packet that contains both identifiers in full. */
  predicate IsFrame(raw: Octets) {
    HasField(raw) && HasField(AfterField(raw))
  }

  function Parsed(raw: Octets): Parts
    requires IsFrame(raw)
  {
    Parts(FieldOf(raw), FieldOf(AfterField(raw)), AfterField(AfterField(raw)))
  }

  // ---------------------------------------------------------------- round trips

  lemma LengthRoundTrip(n: nat)
    requires n < LENGTH_LIMIT
    ensures FieldValue(LengthField(n)) == n
  {
  }

  lemma FieldRoundTrip(b: Octets)
    requires |b| == 2
    ensures LengthField(FieldValue(b)) == b
  {
    var n := FieldValue(b);
    assert n % 0x100 == b[0] as int && n / 0x100 == b[1] as int;
  }

  lemma WrittenField(s: Octets, tail: Octets)
    requires |s| < LENGTH_LIMIT
    ensures var w := LengthField(|s|) + s + tail; HasField(w) && FieldOf(w) == s && AfterField(w) == tail
  {
    var w := LengthField(|s|) + s + tail;
    LengthRoundTrip(|s|);
    assert w[..2] == LengthField(|s|);
  }

  /**
    For all byte strings: reading a written frame gives the payload unchanged and each identifier cut
    to its length modulo 65536.
   */
  lemma FrameRoundTrip(src: Octets, dest: Octets, payload: Octets)
    ensures IsFrame(Frame(src, dest, payload))
    ensures Parsed(Frame(src, dest, payload))
         == Parts(src[..|src| % 65536], dest[..|dest| % 65536], payload)
  {
    var s, d := src[..|src| % LENGTH_LIMIT], dest[..|dest| % LENGTH_LIMIT];
    WrittenField(s, LengthField(|d|) + d + payload);
    WrittenField(d, payload);
  }

  /** So the frame carries a message unchanged exactly when both identifiers are shorter than 65536. */
  lemma FrameIsFaithfulWhen(src: Octets, dest: Octets, payload: Octets)
    ensures IsFrame(Frame(src, dest, payload))
    ensures Parsed(Frame(src, dest, payload)) == Parts(src, dest, payload)
       <==> |src| < 65536 && |dest| < 65536
  {
    FrameRoundTrip(src, dest, payload);
    if |src| < LENGTH_LIMIT && |dest| < LENGTH_LIMIT {
      assert src[..|src|] == src && dest[..|dest|] == dest;
    }
  }

  /** Byte by byte: two bytes of length, low byte first, then the identifier, twice, and then the payload. */
  lemma FrameLayout(src: Octets, dest: Octets, payload: Octets)
    requires |src| < 65536 && |dest| < 65536
    ensures var raw, d := Frame(src, dest, payload), 2 + |src|;
            && |raw| == 4 + |src| + |dest| + |payload|
            && raw[0] as int + 256 * (raw[1] as int) == |src| && raw[2..d] == src
            && raw[d] as int + 256 * (raw[d + 1] as int) == |dest| && raw[d + 2..d + 2 + |dest|] == dest
            && raw[d + 2 + |dest|..] == payload
  {
    var raw, d := Frame(src, dest, payload), 2 + |src|;
    var second := LengthField(|dest|) + dest + payload;
    WholeIdentifier(src);
    WholeIdentifier(dest);
    LengthRoundTrip(|src|);
    LengthRoundTrip(|dest|);
    assert raw == LengthField(|src|) + src + second;
    assert raw[d..] == second;
    assert raw[d] == second[0] && raw[d + 1] == second[1];
    assert raw[d + 2..d + 2 + |dest|] == second[2..2 + |dest|] == dest;
    assert raw[d + 2 + |dest|..] == second[2 + |dest|..] == payload;
  }

  /** The other way round: every packet that parses is the frame of what it parses to. */
  lemma ParsedFramesAreWritten(raw: Octets)
    requires IsFrame(raw)
    ensures var p := Parsed(raw); Frame(p.src, p.dest, p.payload) == raw
  {
    var rest := AfterField(raw);
    ParsedField(raw);
    ParsedField(rest);
    WholeIdentifier(FieldOf(raw));
    WholeIdentifier(FieldOf(rest));
  }

  lemma ParsedField(s: Octets)
    requires HasField(s)
    ensures |FieldOf(s)| < LENGTH_LIMIT
    ensures LengthField(|FieldOf(s)|) + FieldOf(s) + AfterField(s) == s
  {
    FieldRoundTrip(s[..2]);
    assert s[..2] + FieldOf(s) + AfterField(s) == s;
  }

  lemma WholeIdentifier(s: Octets)
    requires |s| < LENGTH_LIMIT
    ensures s[..|s| % LENGTH_LIMIT] == s
  {
  }

  // ---------------------------------------------------------------- the writer and the reader

  /** `std::ostringstream`: writes go to the end. */
  class OutStream {
    var data: Octets

    constructor ()
      ensures data == []
    {
      data := [];
    }

    method Write(bytes: Octets)
      modifies this
      ensures data == old(data) + bytes
    {
      data := data + bytes;
    }
  }

  /** `std::istringstream`: a short read delivers what is left, and from then on nothing. */
  class InStream {
    const data: Octets
    var pos: nat
    var good: bool

    ghost predicate Valid()
      reads this
    {
      pos <= |data|
    }

    constructor (data: Octets)
      ensures this.data == data && Valid() && pos == 0 && good
    {
      this.data := data;
      pos, good := 0, true;
    }

    /** Reads into a buffer that already holds `into`. */
    method Read(into: Octets) returns (out: Octets)
      requires Valid()
      modifies this`pos, this`good
      ensures Valid() && |out| == |into|
      ensures !old(good) ==> !good && pos == old(pos) && out == into
      ensures old(good) ==> good == (old(pos) + |into| <= |data|)
      ensures good ==> pos == old(pos) + |into| && out == data[old(pos)..pos]
      ensures old(good) && !good ==> pos == |data| && out == data[old(pos)..] + into[|data| - old(pos)..]
    {
      if !good {
        return into;
      }
      if pos + |into| <= |data| {
        out := data[pos..pos + |into|];
        pos := pos + |into|;
      } else {
        out := data[pos..] + into[|data| - pos..];
        pos, good := |data|, false;
      }
    }

    /** Everything from the stream position on, as the stream-buffer iterators see it. */
    method Remainder() returns (out: Octets)
      requires Valid()
      modifies this`pos
      ensures Valid() && out == data[old(pos)..] && pos == |data|
    {
      out := data[pos..];
      pos := |data|;
    }
  }

  /** `sendPacket`: the bytes of the packet for a fetched message. */
  method WriteFrame(src: Octets, dest: Octets, payload: Octets) returns (raw: Octets)
    ensures raw == Frame(src, dest, payload)
  {
    var buffer := new OutStream();
    var lenSrc := |src| % LENGTH_LIMIT;
    var lenDest := |dest| % LENGTH_LIMIT;
    buffer.Write(LengthField(lenSrc));
    buffer.Write(src[..lenSrc]);
    buffer.Write(LengthField(lenDest));
    buffer.Write(dest[..lenDest]);
    buffer.Write(payload);
    raw := buffer.data;
    assert raw == Frame(src, dest, payload);
  }

  function Zeros(n: nat): Octets {
    seq(n, _ => '\0')
  }

  /**
    `processPacket`: the parts that are posted. The two length variables are read into uninitialised
    memory, whose contents `junk` stand for. A packet that is no frame is posted all the same, without
    a payload.
   */
  method ReadFrame(raw: Octets, junkSrc: Octets, junkDest: Octets) returns (parts: Parts)
    requires |junkSrc| == 2 && |junkDest| == 2
    ensures IsFrame(raw) ==> parts == Parsed(raw)
    ensures !IsFrame(raw) ==> parts.payload == []
  {
    var stream := new InStream(raw);
    var lenSrc := stream.Read(junkSrc);
    assert stream.good ==> lenSrc == raw[..2];
    var srcId := stream.Read(Zeros(FieldValue(lenSrc)));
    ghost var first := stream.pos;
    assert stream.good <==> HasField(raw);
    assert stream.good ==> srcId == FieldOf(raw) && raw[first..] == AfterField(raw);
    assert !stream.good ==> first == |raw|;
    var lenDest := stream.Read(junkDest);
    assert stream.good ==> lenDest == raw[first..first + 2] == raw[first..][..2];
    var destId := stream.Read(Zeros(FieldValue(lenDest)));
    ghost var second := stream.pos;
    assert stream.good ==> destId == raw[first + 2..second] == raw[first..][2..second - first];
    assert stream.good <==> IsFrame(raw);
    assert stream.good ==> raw[second..] == raw[first..][second - first..];
    assert !stream.good ==> second == |raw|;
    var payload := stream.Remainder();
    parts := Parts(srcId, destId, payload);
  }
}
