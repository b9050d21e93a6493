/**
 * The public client: one method per exchange, each delegating to the wrapper
 * and decoding a successful reply. The device's error byte is copied into the
 * decoded reply and never turned into an error.
 */
module PicoClient {
  import opened Errors
  import opened Picolib
  import opened Models
  import opened Uart
  import opened CWrapper

  /**
   * Field extraction from a reply: function code, device error byte,
   * little-endian args, and the bytes from offset 4 up to but excluding the
   * last two. Slicing needs at least six bytes.
   */
  function ConvertToResponseModel(buff: seq<byte>): (r: McuResponse)
    requires |buff| >= 6
    ensures r.funcCode == buff[FUNC_CODE_OFFSET] && r.errCode == buff[ERR_CODE_OFFSET]
    ensures r.args == buff[ARGS_OFFSET] as uint16 + 256 * buff[ARGS_OFFSET + 1] as uint16
    ensures |r.buffer| == |buff| - 6
    ensures forall k :: 0 <= k < |r.buffer| ==> r.buffer[k] == buff[BUFFER_OFFSET + k]
  {
    McuResponse(buff[0], buff[1], LittleEndian16(buff[2], buff[3]), buff[4..|buff| - 2])
  }

  /**
   * Decoding a serialised frame gives back its header fields and all of its
   * payload except the last byte.
   */
  lemma DecodeFrame(a: Adu)
    ensures ConvertToResponseModel(AduBytes(a)) ==
            McuResponse(a.pdu.funcCode, a.pdu.errCode, a.pdu.args, a.pdu.buffer[..PDU_BUFFER_SIZE - 1])
  {
  }

  /** The last payload byte of a frame never reaches the decoded reply. */
  lemma DecodeIgnoresLastPayloadByte(a: Adu, x: byte)
    ensures ConvertToResponseModel(AduBytes(a)) ==
            ConvertToResponseModel(AduBytes(a.(pdu := a.pdu.(buffer := a.pdu.buffer[PDU_BUFFER_SIZE - 1 := x]))))
  {
  }

  /** How a client method turns the wrapper's result into its own: the error as it is, or the decoded reply. */
  function Respond(raw: seq<byte>, err: Option<Error>): (r: (Option<McuResponse>, Option<Error>))
    requires err.None? ==> |raw| >= 6
    ensures r.1 == err
    ensures r.0.Some? <==> err.None?
    ensures r.0.Some? ==> r.0.value == ConvertToResponseModel(raw)
  {
    if err.Some? then (None, err) else (Some(ConvertToResponseModel(raw)), None)
  }

  /**
   * End to end: when the request is built and written, and the reply read is
   * a frame whose checksum covers its PDU, the call succeeds with the frame's
   * header fields and its first 127 payload bytes, whatever error code the
   * device put in it.
   */
  lemma SealedReplyDecoded(b: BuilderOutput, env: Environment, history: seq<Event>, a: Adu)
    requires b.code == PlErrorNone.Value()
    requires env.onWrite(history, b.buffer[..b.dataSize]) == None
    requires env.onRead(history + [Wrote(b.buffer[..b.dataSize], None)]) == Ok(AduBytes(a))
    requires a.crc == Crc8.Checksum(PduBytes(a.pdu))
    ensures var o := Transaction(b, env, history);
            Respond(o.resp, o.err) ==
            (Some(McuResponse(a.pdu.funcCode, a.pdu.errCode, a.pdu.args, a.pdu.buffer[..PDU_BUFFER_SIZE - 1])), None)
  {
    CheckCrcOfFrame(a);
    DecodeFrame(a);
  }

  class Client {
    const picoClient: UARTWrapper

    constructor (picoClient: UARTWrapper)
      ensures this.picoClient == picoClient
    {
      this.picoClient := picoClient;
    }

    /** The wrapper performed the exchange for b, and resp, err are what the client makes of its result. */
    ghost predicate Answered(b: BuilderOutput, before: seq<Event>, resp: Option<McuResponse>, err: Option<Error>)
      reads picoClient.processor
    {
      var o := Transaction(b, picoClient.processor.env, before);
      picoClient.processor.trace == before + o.events && (resp, err) == Respond(o.resp, o.err)
    }

    method HeatbitRequest() returns (resp: Option<McuResponse>, err: Option<Error>)
      modifies picoClient.processor
      ensures Answered(picoClient.lib.heartbitRequest(), old(picoClient.processor.trace), resp, err)
    {
      var raw, e := picoClient.WrapHeartbitRequest();
      if e.Some? {
        return None, e;
      }
      return Some(ConvertToResponseModel(raw)), None;
    }

    method GetActualDataRequest(sensorName: string) returns (resp: Option<McuResponse>, err: Option<Error>)
      modifies picoClient.processor
      ensures Answered(picoClient.lib.getActualDataRequest(sensorName), old(picoClient.processor.trace), resp, err)
    {
      var raw, e := picoClient.WrapGetActualDataRequest(sensorName);
      if e.Some? {
        return None, e;
      }
      return Some(ConvertToResponseModel(raw)), None;
    }

    method GetHistoryDataRequest(sensorName: string, num: uint16) returns (resp: Option<McuResponse>, err: Option<Error>)
      modifies picoClient.processor
      ensures Answered(picoClient.lib.getHistoryDataRequest(sensorName, num), old(picoClient.processor.trace), resp, err)
    {
      var raw, e := picoClient.WrapGetHistoryDataRequest(sensorName, num);
      if e.Some? {
        return None, e;
      }
      return Some(ConvertToResponseModel(raw)), None;
    }

    method GetSensorInfoRequest(sensorName: string) returns (resp: Option<McuResponse>, err: Option<Error>)
      modifies picoClient.processor
      ensures Answered(picoClient.lib.getSensorInfoRequest(sensorName), old(picoClient.processor.trace), resp, err)
    {
      var raw, e := picoClient.WrapGetSensorInfoRequest(sensorName);
      if e.Some? {
        return None, e;
      }
      return Some(ConvertToResponseModel(raw)), None;
    }

    method GetMcuInfoRequest() returns (resp: Option<McuResponse>, err: Option<Error>)
      modifies picoClient.processor
      ensures Answered(picoClient.lib.getMcuInfoRequest(), old(picoClient.processor.trace), resp, err)
    {
      var raw, e := picoClient.WrapGetMcuInfoRequest();
      if e.Some? {
        return None, e;
      }
      return Some(ConvertToResponseModel(raw)), None;
    }

    method SetReadingPeriodRequest(sensorName: string, delay: uint16) returns (resp: Option<McuResponse>, err: Option<Error>)
      modifies picoClient.processor
      ensures Answered(picoClient.lib.setReadingPeriodRequest(sensorName, delay), old(picoClient.processor.trace), resp, err)
    {
      var raw, e := picoClient.WrapSetReadingPeriodRequest(sensorName, delay);
      if e.Some? {
        return None, e;
      }
      return Some(ConvertToResponseModel(raw)), None;
    }

    method Close() returns (err: Option<Error>)
      modifies picoClient.processor
      ensures err == picoClient.processor.env.onClose(old(picoClient.processor.trace))
      ensures picoClient.processor.trace == old(picoClient.processor.trace) + [Closed(err)]
    {
      err := picoClient.Close();
    }
  }
}
