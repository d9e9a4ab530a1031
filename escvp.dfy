/** The ESC/VP.net packet vocabulary: byte types, the enumerations with their
    fixed byte codes, the Header record, the CommonPart with its defaults, and
    a Packet as a common part paired with a sequence of headers. */
module Packets {

  /** BYTE and UCHAR: an unsigned 8-bit value. */
  newtype uint8 = x: int | 0 <= x < 0x100

  /** USHORT: an unsigned 16-bit value. */
  newtype uint16 = x: int | 0 <= x < 0x1_0000

  /** Width of a header's information buffer (STR is char[16]). */
  const InfoSize: nat := 16

  /** STR: a fixed buffer of exactly 16 bytes. */
  type Str16 = s: seq<uint8> | |s| == InfoSize witness seq(InfoSize, _ => 0)

  /** The 10-byte protocol signature field of the common part. */
  type Signature = s: seq<uint8> | |s| == 10 witness seq(10, _ => 0)

  datatype Option<T> = None | Some(value: T)

  /** Header identifier; its byte code is the enumerator's position. */
  datatype Identifier = Null | Password | NewPassword | ProjectorName | ImType | ProjectorCmdType
  {
    /** Identifier codes run from 0 to 5. */
    function Code(): (c: uint8)
      ensures c <= 5
    {
      match this
      case Null => 0
      case Password => 1
      case NewPassword => 2
      case ProjectorName => 3
      case ImType => 4
      case ProjectorCmdType => 5
    }
  }

  /** The identifier whose code is b, if any. */
  function IdentifierOf(b: uint8): (r: Option<Identifier>)
    ensures r.Some? <==> b <= 5
    ensures r.Some? ==> r.value.Code() == b
  {
    match b
    case 0 => Some(Identifier.Null)
    case 1 => Some(Identifier.Password)
    case 2 => Some(Identifier.NewPassword)
    case 3 => Some(Identifier.ProjectorName)
    case 4 => Some(Identifier.ImType)
    case 5 => Some(Identifier.ProjectorCmdType)
    case _ => None
  }

  /** Projector-name encodings; the code is the enumerator's position. */
  datatype Encoding = Plain | UsAscii | ShiftJis | EucJp
  {
    /** Encoding codes run from 0 to 3. */
    function Code(): (c: uint8)
      ensures c <= 3
    {
      match this
      case Plain => 0
      case UsAscii => 1
      case ShiftJis => 2
      case EucJp => 3
    }
  }

  function EncodingOf(b: uint8): (r: Option<Encoding>)
    ensures r.Some? <==> b <= 3
    ensures r.Some? ==> r.value.Code() == b
  {
    match b
    case 0 => Some(Plain)
    case 1 => Some(UsAscii)
    case 2 => Some(ShiftJis)
    case 3 => Some(EucJp)
    case _ => None
  }

  /** Command-set versions named for the Projector-Cmd-Type header. */
  datatype CmdType = EscVpLevel6 | EscVp21
  {
    /** Command types are coded 0x16 or 0x21, nothing else. */
    function Code(): (c: uint8)
      ensures c == 0x16 || c == 0x21
    {
      match this
      case EscVpLevel6 => 0x16
      case EscVp21 => 0x21
    }
  }

  function CmdTypeOf(b: uint8): (r: Option<CmdType>)
    ensures r.Some? <==> b == 0x16 || b == 0x21
    ensures r.Some? ==> r.value.Code() == b
  {
    if b == 0x16 then Some(EscVpLevel6)
    else if b == 0x21 then Some(EscVp21)
    else None
  }

  /** The handshake phase a packet belongs to (the common part's Type). */
  datatype PacketType = Null | Hello | Password | Connect
  {
    /** Packet type codes run from 0 to 3. */
    function Code(): (c: uint8)
      ensures c <= 3
    {
      match this
      case Null => 0
      case Hello => 1
      case Password => 2
      case Connect => 3
    }
  }

  function PacketTypeOf(b: uint8): (r: Option<PacketType>)
    ensures r.Some? <==> b <= 3
    ensures r.Some? ==> r.value.Code() == b
  {
    match b
    case 0 => Some(PacketType.Null)
    case 1 => Some(PacketType.Hello)
    case 2 => Some(PacketType.Password)
    case 3 => Some(PacketType.Connect)
    case _ => None
  }

  /** Response status; Null is what every request carries. */
  datatype Status = Null | Ok | BadRequest | Unauthorized | Forbidden | Unavailable | VersionNotSupported
  {
    /** Every status is coded by one of the seven status bytes. */
    function Code(): (c: uint8)
      ensures IsStatusCode(c)
    {
      match this
      case Null => 0x00
      case Ok => 0x20
      case BadRequest => 0x40
      case Unauthorized => 0x41
      case Forbidden => 0x45
      case Unavailable => 0x53
      case VersionNotSupported => 0x55
    }
  }

  predicate IsStatusCode(b: uint8) {
    b == 0x00 || b == 0x20 || b == 0x40 || b == 0x41 || b == 0x45 || b == 0x53 || b == 0x55
  }

  function StatusOf(b: uint8): (r: Option<Status>)
    ensures r.Some? <==> IsStatusCode(b)
    ensures r.Some? ==> r.value.Code() == b
  {
    match b
    case 0x00 => Some(Status.Null)
    case 0x20 => Some(Ok)
    case 0x40 => Some(BadRequest)
    case 0x41 => Some(Unauthorized)
    case 0x45 => Some(Forbidden)
    case 0x53 => Some(Unavailable)
    case 0x55 => Some(VersionNotSupported)
    case _ => None
  }

  /** Each enumeration's code decodes back to the enumerator: the codes are
      pairwise distinct, so byte -> enumerator -> byte round-trips. */
  lemma CodesRoundTrip(id: Identifier, enc: Encoding, cmd: CmdType, t: PacketType, s: Status)
    ensures IdentifierOf(id.Code()) == Some(id)
    ensures EncodingOf(enc.Code()) == Some(enc)
    ensures CmdTypeOf(cmd.Code()) == Some(cmd)
    ensures PacketTypeOf(t.Code()) == Some(t)
    ensures StatusOf(s.Code()) == Some(s)
  {
  }

  /** Status codes are injective: two statuses with the same byte are equal. */
  lemma StatusCodeInjective(s: Status, t: Status)
    ensures s.Code() == t.Code() <==> s == t
  {
  }

  /** Header: identifier, an identifier-specific attribute byte and the
      16-byte information buffer. */
  datatype Header = Header(identifier: Identifier, attribute: uint8, infomation: Str16)

  /** The bytes of an ASCII text, one per character. */
  function AsciiBytes(text: string): (r: seq<uint8>)
    requires forall i :: 0 <= i < |text| ==> text[i] as int < 0x80
    ensures |r| == |text|
    ensures forall i :: 0 <= i < |text| ==> r[i] as int == text[i] as int
  {
    seq(|text|, i requires 0 <= i < |text| => text[i] as int as uint8)
  }

  /** The signature every common part starts with, as written byte by byte. */
  const ProtocolSignature: Signature := [0x45, 0x53, 0x43, 0x2F, 0x56, 0x50, 0x2E, 0x6E, 0x65, 0x74]

  /** The signature bytes are the ASCII text "ESC/VP.net". */
  lemma SignatureIsEscVpNet()
    ensures ProtocolSignature == AsciiBytes("ESC/VP.net")
  {
  }

  /** Common part of every request and response. */
  datatype CommonPart = CommonPart(
    protocol: Signature,
    version: uint8,
    packetType: PacketType,
    reserved: uint16,
    status: Status,
    length: uint8)

  /** A common part with the default member initialisers. */
  function DefaultCommonPart(): (c: CommonPart)
    ensures c.protocol == AsciiBytes("ESC/VP.net")
    ensures c.version == 0x10
    ensures c.packetType == PacketType.Null && c.packetType.Code() == 0
    ensures c.reserved == 0
    ensures c.status == Status.Null && c.status.Code() == 0x00
    ensures c.length == 0
  {
    SignatureIsEscVpNet();
    CommonPart(ProtocolSignature, 0x10, PacketType.Null, 0, Status.Null, 0)
  }

  /** A packet: one common part and the headers that follow it. */
  datatype Packet = Packet(common: CommonPart, headers: seq<Header>)

  /** The length field counts the headers that follow. */
  predicate WellFormed(p: Packet)
    ensures WellFormed(p) ==> |p.headers| < 0x100
  {
    p.common.length as int == |p.headers|
  }

  /** A packet with the default common part and no headers is well-formed,
      and adding headers to it breaks that until length is updated. */
  lemma DefaultPacketWellFormed(headers: seq<Header>)
    ensures WellFormed(Packet(DefaultCommonPart(), headers)) <==> headers == []
  {
  }

  /** Setting length to the number of headers makes a packet well-formed
      exactly when that number fits in length's byte. */
  lemma CountingMakesWellFormed(p: Packet)
    ensures |p.headers| < 0x100 ==> WellFormed(p.(common := p.common.(length := |p.headers| as uint8)))
    ensures WellFormed(p) ==> |p.headers| < 0x100
  {
  }
}
