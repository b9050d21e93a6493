/**
 * The constants, enumerations and packed frame layout of the PICO protocol
 * library header. A frame (ADU) is a PDU followed by one checksum byte; the
 * structs are packed, so every field sits at a fixed byte offset. The 16-bit
 * `args` field is read least significant byte first, the order in which the Go
 * client decodes it (client/client.go:29).
 */
module Picolib {
  import opened Errors

  type byte = bv8
  type uint16 = bv16

  const PDU_BUFFER_SIZE := 128
  const CRC8_POLYNOM: byte := 0x07
  const CRC8_INIT: byte := 0x00

  /** Library error codes; C numbers the constants 0, 1, 2, ... in declaration order. */
  datatype PlError =
    | PlErrorNone
    | PlErrorNoPackage
    | PlErrorInvalidSensorName
    | PlErrorInvalidArgument
    | PlErrorInvalidFunctionCode
    | PlErrorInvalidCrc
    | PlErrorRequestTimeout
    | PlErrorTransport
  {
    function Value(): int
    {
      match this
      case PlErrorNone => 0
      case PlErrorNoPackage => 1
      case PlErrorInvalidSensorName => 2
      case PlErrorInvalidArgument => 3
      case PlErrorInvalidFunctionCode => 4
      case PlErrorInvalidCrc => 5
      case PlErrorRequestTimeout => 6
      case PlErrorTransport => 7
    }

    /** The enumeration constant with the given numeric value, if there is one. */
    static function FromValue(v: int): (r: Option<PlError>)
      ensures r.Some? <==> 0 <= v <= 7
      ensures r.Some? ==> r.value.Value() == v
    {
      if v == 0 then Some(PlErrorNone)
      else if v == 1 then Some(PlErrorNoPackage)
      else if v == 2 then Some(PlErrorInvalidSensorName)
      else if v == 3 then Some(PlErrorInvalidArgument)
      else if v == 4 then Some(PlErrorInvalidFunctionCode)
      else if v == 5 then Some(PlErrorInvalidCrc)
      else if v == 6 then Some(PlErrorRequestTimeout)
      else if v == 7 then Some(PlErrorTransport)
      else None
    }
  }

  /** Function codes, numbered 0..5 in declaration order. */
  datatype PlFunc =
    | PlFuncHeartbit
    | PlFuncGetActualData
    | PlFuncGetHistoryData
    | PlFuncGetSensorInfo
    | PlFuncGetMcuInfo
    | PlFuncSetReadingPeriod
  {
    function Value(): int
    {
      match this
      case PlFuncHeartbit => 0
      case PlFuncGetActualData => 1
      case PlFuncGetHistoryData => 2
      case PlFuncGetSensorInfo => 3
      case PlFuncGetMcuInfo => 4
      case PlFuncSetReadingPeriod => 5
    }

    static function FromValue(v: int): (r: Option<PlFunc>)
      ensures r.Some? <==> 0 <= v <= 5
      ensures r.Some? ==> r.value.Value() == v
    {
      if v == 0 then Some(PlFuncHeartbit)
      else if v == 1 then Some(PlFuncGetActualData)
      else if v == 2 then Some(PlFuncGetHistoryData)
      else if v == 3 then Some(PlFuncGetSensorInfo)
      else if v == 4 then Some(PlFuncGetMcuInfo)
      else if v == 5 then Some(PlFuncSetReadingPeriod)
      else None
    }
  }

  /** Each enumeration constant is recovered from its numeric value. */
  lemma EnumValuesRoundTrip(e: PlError, f: PlFunc)
    ensures PlError.FromValue(e.Value()) == Some(e)
    ensures PlFunc.FromValue(f.Value()) == Some(f)
  {
  }

  type Payload = s: seq<byte> | |s| == PDU_BUFFER_SIZE witness seq(128, _ => 0)

  /** pl_pdu_t */
  datatype Pdu = Pdu(funcCode: byte, errCode: byte, args: uint16, buffer: Payload)

  /** pl_adu_t */
  datatype Adu = Adu(pdu: Pdu, crc: byte)

  // Byte offsets of the packed layout.
  const FUNC_CODE_OFFSET := 0
  const ERR_CODE_OFFSET := 1
  const ARGS_OFFSET := 2
  const BUFFER_OFFSET := 4
  const PDU_SIZE := 132
  const CRC_OFFSET := 132
  const ADU_SIZE := 133

  function LowByte(v: uint16): byte
  {
    (v & 0xFF) as byte
  }

  function HighByte(v: uint16): byte
  {
    (v >> 8) as byte
  }

  /**
   * The 16-bit value stored little-endian in the two bytes lo, hi: the low
   * byte plus 256 times the high byte (a sum that cannot wrap in 16 bits).
   */
  function LittleEndian16(lo: byte, hi: byte): (v: uint16)
    ensures v == lo as uint16 + 256 * hi as uint16
    ensures LowByte(v) == lo && HighByte(v) == hi
  {
    (hi as uint16 << 8) | lo as uint16
  }

  /** Splitting a 16-bit value into its two bytes and joining them again gives it back. */
  lemma LittleEndian16OfBytes(v: uint16)
    ensures LittleEndian16(LowByte(v), HighByte(v)) == v
  {
  }

  /** The bytes of a packed pl_pdu_t, field by field at the layout's offsets. */
  function PduBytes(p: Pdu): (bytes: seq<byte>)
    ensures |bytes| == PDU_SIZE == BUFFER_OFFSET + PDU_BUFFER_SIZE
    ensures bytes[FUNC_CODE_OFFSET] == p.funcCode
    ensures bytes[ERR_CODE_OFFSET] == p.errCode
    ensures LittleEndian16(bytes[ARGS_OFFSET], bytes[ARGS_OFFSET + 1]) == p.args
    ensures bytes[BUFFER_OFFSET..PDU_SIZE] == p.buffer
  {
    LittleEndian16OfBytes(p.args);
    [p.funcCode, p.errCode, LowByte(p.args), HighByte(p.args)] + p.buffer
  }

  /** The bytes of a packed pl_adu_t: the PDU, then the checksum at the last offset. */
  function AduBytes(a: Adu): (bytes: seq<byte>)
    ensures |bytes| == ADU_SIZE == PDU_SIZE + 1
    ensures bytes[..PDU_SIZE] == PduBytes(a.pdu)
    ensures bytes[CRC_OFFSET] == a.crc
  {
    PduBytes(a.pdu) + [a.crc]
  }

  /** Reading a 133-byte frame through the packed layout; the frame is exactly its serialisation. */
  function AduOf(bytes: seq<byte>): (a: Adu)
    requires |bytes| == ADU_SIZE
    ensures AduBytes(a) == bytes
  {
    var a := Adu(Pdu(bytes[FUNC_CODE_OFFSET], bytes[ERR_CODE_OFFSET],
                     LittleEndian16(bytes[ARGS_OFFSET], bytes[ARGS_OFFSET + 1]),
                     bytes[BUFFER_OFFSET..PDU_SIZE]),
                 bytes[CRC_OFFSET]);
    assert AduBytes(a)[..BUFFER_OFFSET] == bytes[..BUFFER_OFFSET];
    assert AduBytes(a) == AduBytes(a)[..BUFFER_OFFSET] + AduBytes(a)[BUFFER_OFFSET..PDU_SIZE] + [a.crc];
    assert bytes == bytes[..BUFFER_OFFSET] + bytes[BUFFER_OFFSET..PDU_SIZE] + [bytes[CRC_OFFSET]];
    a
  }

  /** Writing the fields at their offsets and reading them back recovers every field. */
  lemma AduRoundTrip(a: Adu)
    ensures AduOf(AduBytes(a)) == a
  {
  }
}
