/**
  How the ns-3 bridge finds its hosts: identifiers such as `host7`, node numbers, and the addresses
  through which a number travels from the sending node to the receiving one.
 */
module HostNames {
  import opened Messages
  import opened Decimals

  // ---------------------------------------------------------------- identifiers

  const HOST := "host"

  function HostName(index: int): string {
    HOST + ToString(index)
  }

  predicate IsSpace(c: char) {
    c == ' ' || '\t' <= c <= '\r'
  }

  function SkipSpaces(s: string): string {
    if s != "" && IsSpace(s[0]) then SkipSpaces(s[1..]) else s
  }

  function LeadingDigits(s: string): (d: string)
    ensures AllDigits(d)
  {
    if s != "" && IsDigit(s[0]) then [s[0]] + LeadingDigits(s[1..]) else ""
  }

  predicate IsInt32(n: int) {
    -0x8000_0000 <= n < 0x8000_0000
  }

  /** The number that leading digits denote. */
  function Magnitude(s: string): Option<int> {
    var digits := LeadingDigits(s);
    if digits == "" then None else Some(Value(digits))
  }

  function InRange(n: int): Option<int> {
    if IsInt32(n) then Some(n) else None
  }

  /** `std::stoi`: spaces, a sign, digits, and then anything; nothing when it throws. */
  function Stoi(s: string): Option<int> {
    var t := SkipSpaces(s);
    var signed := t != "" && (t[0] == '-' || t[0] == '+');
    match Magnitude(if signed then t[1..] else t)
    case None => None
    case Some(n) => InRange(if signed && t[0] == '-' then -n else n)
  }

  lemma {:induction false} SpacesAreSkipped(spaces: string, rest: string)
    requires forall i :: 0 <= i < |spaces| ==> IsSpace(spaces[i])
    requires rest != "" ==> !IsSpace(rest[0])
    ensures SkipSpaces(spaces + rest) == rest
  {
    if spaces == "" {
      assert spaces + rest == rest;
    } else {
      assert (spaces + rest)[1..] == spaces[1..] + rest;
      SpacesAreSkipped(spaces[1..], rest);
    }
  }

  lemma {:induction false} DigitsAreTaken(digits: string, rest: string)
    requires AllDigits(digits) && (rest != "" ==> !IsDigit(rest[0]))
    ensures LeadingDigits(digits + rest) == digits
  {
    if digits == "" {
      assert digits + rest == rest;
    } else {
      assert (digits + rest)[0] == digits[0] && (digits + rest)[1..] == digits[1..] + rest;
      DigitsAreTaken(digits[1..], rest);
    }
  }

  /** What `std::stoi` reads: any spaces, perhaps a sign, digits, and anything that goes on without a digit. */
  lemma StoiReads(spaces: string, sign: string, digits: string, rest: string)
    requires forall i :: 0 <= i < |spaces| ==> IsSpace(spaces[i])
    requires sign == "" || sign == "-" || sign == "+"
    requires digits != "" && AllDigits(digits) && (rest != "" ==> !IsDigit(rest[0]))
    ensures var magnitude: int := Value(digits);
            var n := if sign == "-" then -magnitude else magnitude;
            Stoi(spaces + (sign + (digits + rest))) == if -2147483648 <= n < 2147483648 then Some(n) else None
  {
    var t := sign + (digits + rest);
    assert IsDigit(digits[0]) && (digits + rest)[0] == digits[0];
    SignedText(sign, digits + rest);
    SpacesAreSkipped(spaces, t);
    DigitsAreTaken(digits, rest);
  }

  /** It fails when there is no digit where one is due. */
  lemma StoiFails(spaces: string, sign: string, rest: string)
    requires forall i :: 0 <= i < |spaces| ==> IsSpace(spaces[i])
    requires sign == "" || sign == "-" || sign == "+"
    requires rest != "" ==> !IsDigit(rest[0])
    requires rest != "" && sign == "" ==> !IsSpace(rest[0]) && rest[0] != '-' && rest[0] != '+'
    ensures Stoi(spaces + (sign + rest)) == None
  {
    SignedText(sign, rest);
    SpacesAreSkipped(spaces, sign + rest);
    DigitsAreTaken("", rest);
    assert "" + rest == rest;
  }

  lemma SignedText(sign: string, rest: string)
    requires sign == "" || sign == "-" || sign == "+"
    ensures sign == "" ==> sign + rest == rest
    ensures sign != "" ==> (sign + rest)[0] == sign[0] && (sign + rest)[1..] == rest
  {
  }

  /** The number in an identifier; nothing unless it begins with `host` and goes on with a number. */
  function IndexOf(id: string): Option<int> {
    if |id| < 4 || id[..4] != HOST then None else Stoi(id[4..])
  }

  /** The node that a source identifier names: its number if it is one of the simulated hosts. */
  function NodeOf(id: string, hosts: nat): Option<nat> {
    var index := IndexOf(id);
    if index.Some? && 0 <= index.value < hosts then Some(index.value) else None
  }

  /** What identifiers name: nothing without the word `host`, and otherwise the number that follows it. */
  lemma IdentifierMeans(id: string, rest: string, hosts: nat)
    ensures IndexOf("host" + rest) == Stoi(rest)
    ensures (forall r: string :: id != "host" + r) ==> IndexOf(id) == None
    ensures forall n: nat :: NodeOf("host" + rest, hosts) == Some(n) <==> Stoi(rest) == Some(n) && n < hosts
  {
    assert ("host" + rest)[..4] == "host" && ("host" + rest)[4..] == rest;
    if |id| >= 4 && id[..4] == "host" {
      assert id == "host" + id[4..];
    }
  }

  /** The characters that `std::stoi` skips: the space, and the five from tab to carriage return. */
  lemma SpacesAre(c: char)
    ensures IsSpace(c) <==> c as int == 32 || c as int == 9 || c as int == 10 || c as int == 11 || c as int == 12
                            || c as int == 13
  {
  }

  /** Digits as `std::to_string` writes them. */
  predicate Canonical(s: string) {
    s != "" && AllDigits(s) && (|s| == 1 || s[0] != '0')
  }

  lemma {:induction false} DecimalIsCanonical(n: nat)
    ensures Canonical(Decimal(n)) && (n > 0 ==> Decimal(n)[0] != '0')
  {
    if n >= 10 {
      DecimalIsCanonical(n / 10);
    }
  }

  lemma {:induction false} CanonicalIsDecimal(s: string)
    requires Canonical(s)
    ensures Decimal(Value(s)) == s && (s[0] != '0' ==> Value(s) > 0)
  {
    var init, last := s[..|s| - 1], s[|s| - 1];
    if |s| > 1 {
      assert init[0] == s[0];
      CanonicalIsDecimal(init);
      assert Value(s) == Value(init) * 10 + (last as int - '0' as int);
      assert Value(s) / 10 == Value(init);
    } else {
      assert Value(init) == 0;
    }
    assert Digit((last as int - '0' as int)) == last;
    assert s == init + [last];
  }

  lemma {:induction false} LeadingDigitsOfDigits(s: string)
    requires AllDigits(s)
    ensures LeadingDigits(s) == s
  {
    if s != "" {
      LeadingDigitsOfDigits(s[1..]);
    }
  }

  lemma MagnitudeOfDigits(digits: string)
    requires digits != "" && AllDigits(digits)
    ensures Magnitude(digits) == Some(Value(digits)) && SkipSpaces(digits) == digits
  {
    LeadingDigitsOfDigits(digits);
    assert IsDigit(digits[0]);
  }

  /** `std::stoi` reads back what `std::to_string` writes. */
  lemma NumberRoundTrip(n: int)
    requires IsInt32(n)
    ensures Stoi(ToString(n)) == Some(n)
  {
    var digits := Decimal(if n < 0 then -n else n);
    DecimalRoundTrip(if n < 0 then -n else n);
    MagnitudeOfDigits(digits);
    if n < 0 {
      assert ToString(n)[0] == '-' && ToString(n)[1..] == digits;
      assert SkipSpaces(ToString(n)) == ToString(n);
    } else {
      assert IsDigit(digits[0]);
    }
  }

  /** The hosts of the simulation are named `host0`, `host1` and so on, each after its own number. */
  lemma HostsAreNamed(index: int)
    requires IsInt32(index)
    ensures IndexOf(HostName(index)) == Some(index)
  {
    assert HostName(index)[..4] == HOST && HostName(index)[4..] == ToString(index);
    NumberRoundTrip(index);
  }

  /**
    The name made from an identifier's number is the identifier itself exactly when that is written as
    the number would be: no leading zero, no spaces, no sign, nothing after the digits. (No host has a
    negative number, so `host-1` is not counted among the canonical names.)
   */
  lemma HostNameRoundTripWhen(id: string)
    requires IndexOf(id).Some? && IndexOf(id).value >= 0
    ensures HostName(IndexOf(id).value) == id <==> Canonical(id[4..])
  {
    var n, rest := IndexOf(id).value, id[4..];
    assert id == HOST + rest;
    DecimalIsCanonical(n);
    if HostName(n) == id {
      assert HostName(n)[4..] == Decimal(n);
    }
    if Canonical(rest) {
      assert IsDigit(rest[0]);
      MagnitudeOfDigits(rest);
      CanonicalIsDecimal(rest);
    }
  }

  /** A canonical name has a number that is not negative. */
  lemma CanonicalIsNatural(id: string)
    requires IndexOf(id).Some? && Canonical(id[4..])
    ensures IndexOf(id).value >= 0
  {
    assert IsDigit(id[4..][0]);
  }

  // ---------------------------------------------------------------- addresses

  type Octet = n: int | 0 <= n < 256

  datatype Ipv4 = Ipv4(a: Octet, b: Octet, c: Octet, d: Octet)

  /** An address as it is printed. */
  function Text(ip: Ipv4): string {
    (Decimal(ip.a) + "." + Decimal(ip.b) + "." + Decimal(ip.c)) + "." + Decimal(ip.d)
  }

  const BASE_IP_PREFIX := "10.1.1."

  /** The broadcast address of the hosts' subnet, whose mask is 255.255.255.0: no host can be at it. */
  const BROADCAST := Ipv4(10, 1, 1, 255)

  /** The text from which the address of host `index` is made, for the host itself and for its callers. */
  function AddressText(index: int): string {
    BASE_IP_PREFIX + ToString(index + 1)
  }

  /**
    How the simulator reads an address. It reads back what it prints; what it makes of other text, such
    as `10.1.1.256`, is left open.
   */
  ghost predicate ReadsAddresses(parse: string -> Ipv4) {
    forall ip: Ipv4 :: parse(Text(ip)) == ip
  }

  lemma OneMoreOctet(head1: string, head2: string, d1: Octet, d2: Octet)
    requires head1 + "." + Decimal(d1) == head2 + "." + Decimal(d2)
    ensures head1 == head2 && d1 == d2
  {
    DecimalRoundTrip(d1);
    DecimalRoundTrip(d2);
    LastIndexBeforeDigits(head1, '.', Decimal(d1));
    LastIndexBeforeDigits(head2, '.', Decimal(d2));
    var text := head1 + "." + Decimal(d1);
    assert text[..|head1|] == head1 && text[|head1| + 1..] == Decimal(d1);
    assert (head2 + "." + Decimal(d2))[..|head2|] == head2 && (head2 + "." + Decimal(d2))[|head2| + 1..] == Decimal(d2);
  }

  /** Different addresses are printed differently. */
  lemma TextIsInjective(x: Ipv4, y: Ipv4)
    requires Text(x) == Text(y)
    ensures x == y
  {
    var ab1, ab2 := Decimal(x.a) + "." + Decimal(x.b), Decimal(y.a) + "." + Decimal(y.b);
    OneMoreOctet(ab1 + "." + Decimal(x.c), ab2 + "." + Decimal(y.c), x.d, y.d);
    OneMoreOctet(ab1, ab2, x.c, y.c);
    OneMoreOctet(Decimal(x.a), Decimal(y.a), x.b, y.b);
    DecimalRoundTrip(x.a);
    DecimalRoundTrip(y.a);
  }

  /** So there is a way to read addresses, and every result about one speaks of something. */
  lemma AddressesCanBeRead() returns (parse: string -> Ipv4)
    ensures ReadsAddresses(parse)
  {
    parse := s => if exists ip: Ipv4 :: Text(ip) == s then ReadText(s) else BROADCAST;
    forall ip: Ipv4
      ensures parse(Text(ip)) == ip
    {
      TextIsInjective(ip, ReadText(Text(ip)));
    }
  }

  ghost function ReadText(s: string): (ip: Ipv4)
    requires exists ip: Ipv4 :: Text(ip) == s
    ensures Text(ip) == s
  {
    var ip: Ipv4 :| Text(ip) == s;
    ip
  }

  /** The source identifier that the receiving side derives from the sender's address, if it can. */
  function SenderOf(ip: Ipv4): Option<string> {
    var text := Text(ip);
    var lastDot := LastIndex(text, '.');
    if lastDot < 0 then None
    else
      var octet := Stoi(text[lastDot + 1..]);
      if octet.Some? then Some(HostName(octet.value - 1)) else None
  }

  lemma SenderIsLastOctet(ip: Ipv4)
    ensures SenderOf(ip) == Some(HostName(ip.d - 1))
  {
    var head := Decimal(ip.a) + "." + Decimal(ip.b) + "." + Decimal(ip.c);
    DecimalRoundTrip(ip.d);
    LastIndexBeforeDigits(head, '.', Decimal(ip.d));
    assert Text(ip)[|head| + 1..] == Decimal(ip.d) == ToString(ip.d);
    NumberRoundTrip(ip.d);
  }

  lemma PrefixOfText(k: Octet)
    ensures Text(Ipv4(10, 1, 1, k)) == BASE_IP_PREFIX + Decimal(k)
  {
    assert Decimal(10) == "10" && Decimal(1) == "1";
    assert "10" + "." + "1" + "." + "1" + "." == BASE_IP_PREFIX;
  }

  /** How hosts and their addresses are written. */
  lemma HostsAreWritten()
    ensures HostName(0) == "host0" && HostName(253) == "host253"
    ensures AddressText(0) == "10.1.1.1" && AddressText(253) == "10.1.1.254"
    ensures Text(BROADCAST) == "10.1.1.255"
  {
    assert ToString(0) == "0" && ToString(1) == "1";
    assert Decimal(25) == "25" && Decimal(253) == "253" && Decimal(254) == "254" && Decimal(255) == "255";
    PrefixOfText(255);
  }

  /** Up to host 254 the text is an address. */
  lemma AddressIsRead(parse: string -> Ipv4, index: int)
    requires ReadsAddresses(parse) && -1 <= index <= 254
    ensures parse(AddressText(index)) == Ipv4(10, 1, 1, index + 1)
  {
    PrefixOfText(index + 1);
    assert parse(Text(Ipv4(10, 1, 1, index + 1))) == Ipv4(10, 1, 1, index + 1);
  }

  /**
    A source identifier survives the trip through its node's address exactly when it is canonical and the
    number after it still fits an octet: however the simulator reads the longer texts, an address holds
    no more than 255 in its last place.
   */
  lemma SourceSurvivesWhen(parse: string -> Ipv4, id: string)
    requires ReadsAddresses(parse) && IndexOf(id).Some? && IndexOf(id).value >= 0
    ensures SenderOf(parse(AddressText(IndexOf(id).value))) == Some(id)
       <==> Canonical(id[4..]) && IndexOf(id).value <= 254
  {
    var n := IndexOf(id).value;
    var ip := parse(AddressText(n));
    SenderIsLastOctet(ip);
    HostNameRoundTripWhen(id);
    if n <= 254 {
      AddressIsRead(parse, n);
    } else {
      HostsAreNamed(ip.d - 1);
    }
  }

  // ---------------------------------------------------------------- the simulated network

  /**
    A connection that node `from` makes to the address of host `to` reaches node `at`: that node has the
    address, and neither end has the broadcast address.
   */
  ghost predicate Reaches(parse: string -> Ipv4, hosts: nat, from: nat, to: int, at: nat) {
    && at < hosts
    && parse(AddressText(at)) == parse(AddressText(to)) != BROADCAST
    && parse(AddressText(from)) != BROADCAST
  }

  /** Where a connection may end up: at a node it reaches, or nowhere if there is none. */
  ghost predicate Lands(parse: string -> Ipv4, hosts: nat, from: nat, to: int, at: Option<nat>) {
    match at
    case Some(node) => Reaches(parse, hosts, from, to, node)
    case None => forall node: nat :: !Reaches(parse, hosts, from, to, node)
  }

  /** Host `to` has an address of its own. */
  ghost predicate HasOwnAddress(parse: string -> Ipv4, hosts: nat, to: nat) {
    && parse(AddressText(to)) != BROADCAST
    && forall node: nat :: node < hosts && node != to ==> parse(AddressText(node)) != parse(AddressText(to))
  }

  /** With at most 254 hosts all of them do. */
  lemma SmallNetworksHaveOwnAddresses(parse: string -> Ipv4, hosts: nat, to: nat)
    requires ReadsAddresses(parse) && to < hosts <= 254
    ensures HasOwnAddress(parse, hosts, to)
  {
    forall node: nat | node < hosts
      ensures parse(AddressText(node)) == Ipv4(10, 1, 1, node + 1)
    {
      AddressIsRead(parse, node);
    }
  }

  /** Every connection lands somewhere or nowhere; it always lands at `to` when that has its own address. */
  lemma LandsAt(parse: string -> Ipv4, hosts: nat, from: nat, to: nat, at: Option<nat>)
    requires to < hosts && HasOwnAddress(parse, hosts, to) && parse(AddressText(from)) != BROADCAST
    requires Lands(parse, hosts, from, to, at)
    ensures at == Some(to)
  {
    assert Reaches(parse, hosts, from, to, to);
  }

  lemma SomeLanding(parse: string -> Ipv4, hosts: nat, from: nat, to: int) returns (at: Option<nat>)
    ensures Lands(parse, hosts, from, to, at)
  {
    if node: nat :| Reaches(parse, hosts, from, to, node) {
      at := Some(node);
    } else {
      at := None;
    }
  }

  /** A connection that always reaches host `to` and no other shows that `to` has its own address. */
  lemma OwnAddressIfAlwaysReached(parse: string -> Ipv4, hosts: nat, from: nat, to: nat)
    requires forall at :: Lands(parse, hosts, from, to, at) ==> at == Some(to)
    ensures to < hosts && HasOwnAddress(parse, hosts, to) && parse(AddressText(from)) != BROADCAST
  {
    var at := SomeLanding(parse, hosts, from, to);
    forall node: nat | node < hosts && node != to
      ensures parse(AddressText(node)) != parse(AddressText(to))
    {
      assert Lands(parse, hosts, from, to, Some(node)) ==> Some(node) == Some(to);
    }
  }
}
