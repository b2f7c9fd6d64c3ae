/** The PDUs that the two ends of the CoAP transport exchange, as the parser delivers them. */
module CoapPdu {
  import opened Options

  type byte = x: int | 0 <= x < 0x100

  datatype PduType = Confirmable | NonConfirmable | Acknowledgement | Reset

  /** Block1: the number of this block, whether more follow, and the block size in bytes. */
  datatype Block1 = Block1(num: nat, more: bool, size: nat)

  datatype ReplyTo = ReplyTo(host: seq<byte>, port: int, encrypted: bool, resource: seq<byte>)

  datatype Pdu = Pdu(
    pduType: PduType,
    pduClass: nat,
    code: nat,
    mid: nat,
    token: seq<byte>,
    block1: Option<Block1>,
    uriPath: Option<seq<byte>>,
    uriQuery: Option<seq<byte>>,
    replyTo: Option<ReplyTo>,
    contentFormat: Option<nat>,
    totalSize: Option<nat>,
    payload: seq<byte>)

  const REQUEST: nat := 0
  const SUCCESS: nat := 2
  const CLIENT_ERROR: nat := 4

  const GET: nat := 1
  const POST: nat := 2

  const CHANGED: nat := 4
  const CONTENT: nat := 5
  const CONTINUE: nat := 31

  const LINK_FORMAT: nat := 40
  const OCTET_STREAM: nat := 42

  /** The block sizes that can be sent. */
  predicate IsBlockSize(size: nat) {
    size == 16 || size == 32 || size == 64 || size == 128 || size == 256 || size == 512 || size == 1024
  }

  /** The block sizes that can be received. */
  predicate IsReceivedSize(size: nat) {
    IsBlockSize(size) || size == 2048
  }

  const MAX_USP_MSG_LEN: nat := 64 * 1024
  const MAX_PAYLOAD_SIZE: nat := 1024
  const MESSAGE_IDS: nat := 0x1_0000

  /** What a PDU makes the receiver do; the source keeps these as bits of one word. */
  datatype Flag =
    | SendRst | SendAck
    | BadRequest | BadOption | NotFound | BadMethod | Incomplete | TooLarge | BadContent
    | WellKnown
    | NextRecord | NextBlock | IgnorePdu | ResetState | ResendLast | RecordComplete

  type Flags = set<Flag>

  /** The flags that make an ACK report an error. */
  predicate IsFault(f: Flag) {
    f.BadRequest? || f.BadOption? || f.NotFound? || f.BadMethod? || f.Incomplete? || f.TooLarge? || f.BadContent?
  }

  predicate ErrInAck(flags: Flags) {
    || BadRequest in flags || BadOption in flags || NotFound in flags || BadMethod in flags
    || Incomplete in flags || TooLarge in flags || BadContent in flags
  }

  /** What the parser makes of a datagram: a PDU, or as much of one as it got to and what to do about it. */
  datatype Parse =
    | Parsed(pdu: Pdu)
    | Unparsed(partial: Pdu, flags: Flags)

  /** The ways in which parsing ends early. */
  predicate IsParseFault(flags: Flags) {
    flags == {IgnorePdu} || flags == {SendRst} || flags == {SendAck, BadOption}
  }

  function Min(a: int, b: int): int {
    if a <= b then a else b
  }

  function NextMessageId(mid: nat): nat {
    (mid + 1) % MESSAGE_IDS
  }

  /** A PDU that carries nothing but a header and a token. */
  function Bare(pduType: PduType, pduClass: nat, code: nat, mid: nat, token: seq<byte>): Pdu {
    Pdu(pduType, pduClass, code, mid, token, None, None, None, None, None, None, [])
  }
}
