/**
  The protocol messages of the bridge and the records built from them.

  A `std::string` is a Dafny `string`; a protobuf sub-message whose presence the code tests is an
  `Option`; the `oneof` is a datatype. Enumerations are open, as in proto3: a number without a name
  is kept.
 */
module Messages {

  datatype Option<+T> = None | Some(value: T) {
    function GetOr(default: T): T {
      match this
      case Some(v) => v
      case None => default
    }
  }

  datatype Operation =
    | PING | INIT | SEND | FETCH | POST | RECEIVE | FORWARD | EXIT
    | OtherOperation(number: int)

  datatype Originator = DAEMON | APP_CLIENT | SIM_CLIENT | OtherOriginator(number: int)

  datatype OpCode =
    | SUCCESS | FAILURE | CLIENT_REQUEST | DAEMON_RESPONSE | IMPLICIT_TARGET | EXPLICIT_TARGET
    | MESSAGE | NO_MESSAGE
    | OtherCode(number: int)

  datatype SystemMode = PULL | PUSH | OtherSystemMode(number: int)

  datatype SimulatorMode = SYSTEM_WIDE | PER_NODE | OtherSimulatorMode(number: int)

  datatype Config = Config(
    systemMode: SystemMode,
    simulatorMode: SimulatorMode,
    useDb: bool,
    dbAddress: string,
    dbPort: int,
    dbNum: int)

  datatype Manifest = Manifest(op: Operation, og: Originator, code: OpCode)

  datatype Metadata = Metadata(srcId: string, destId: string, payloadSize: int)

  datatype IntroDetails = IntroDetails(
    identifier: string,
    address: string,
    chCtrl: int,
    chSend: int,
    chRecv: int)

  datatype Body =
    | NoBody
    | Payload(bytes: string)
    | MsgKey(key: string)
    | Intro(details: IntroDetails)
    | ConfigParams(params: Config)

  const NO_METADATA := Metadata("", "", 0)

  /** A message. An absent manifest reads as `Manifest(PING, DAEMON, SUCCESS)`, so it is not optional here. */
  datatype Nsbm = Nsbm(manifest: Manifest, metadata: Option<Metadata>, body: Body) {

    /** Reading an absent sub-message gives the defaults. */
    function Meta(): Metadata {
      metadata.GetOr(NO_METADATA)
    }

    /** `msg_get_payload_obj`: the member of the `oneof` that the configuration says to look at. */
    function PayloadObj(useDb: bool): string {
      match body
      case Payload(bytes) => if useDb then "" else bytes
      case MsgKey(key) => if useDb then key else ""
      case _ => ""
    }
  }

  /** `msg_set_payload_obj`. */
  function PayloadBody(useDb: bool, payloadObj: string): Body {
    if useDb then MsgKey(payloadObj) else Payload(payloadObj)
  }

  datatype MessageEntry = MessageEntry(
    source: string,
    destination: string,
    payloadObj: string,
    payloadSize: int)
  {
    predicate Exists() {
      source != "" && destination != "" && payloadObj != ""
    }
  }

  const BLANK_ENTRY := MessageEntry("", "", "", 0)

  /** The entry that the daemon, or a client, builds from a message. */
  function EntryOf(useDb: bool, m: Nsbm): MessageEntry {
    MessageEntry(m.Meta().srcId, m.Meta().destId, m.PayloadObj(useDb), m.Meta().payloadSize)
  }

  /** `static_cast<int>` of a size: the low 32 bits, read as a signed number. */
  function Int32(n: int): int {
    (n + 0x8000_0000) % 0x1_0000_0000 - 0x8000_0000
  }

  /** It is the number itself if that fits, and otherwise the one that differs from it by a multiple of 2^32. */
  lemma Int32Is(n: int)
    ensures -2147483648 <= Int32(n) < 2147483648 && (n - Int32(n)) % 4294967296 == 0
    ensures -2147483648 <= n < 2147483648 ==> Int32(n) == n
  {
    var q := (n + 0x8000_0000) / 0x1_0000_0000;
    assert n - Int32(n) == q * 0x1_0000_0000;
  }

  function Min(a: int, b: int): int {
    if a < b then a else b
  }

  /** A message written to a descriptor. */
  datatype Wire = Wire(fd: int, msg: Nsbm)
}
