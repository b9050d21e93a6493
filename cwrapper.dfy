/**
 * The Go wrapper around the C protocol library: translation of library status
 * codes into errors, the checksum gate every reply must pass, and the six
 * request/response exchanges. Each exchange asks a request builder of the C
 * library for a request, writes it, reads one reply and checks its checksum,
 * stopping at the first failure. There is no retry and no locking.
 */
module CWrapper {
  import opened Errors
  import opened Picolib
  import Crc8
  import opened Uart

  /** plErrorMap: the library codes the wrapper knows, with the error each becomes (None is success). */
  const PL_ERROR_MAP: map<int, Option<Error>> := map[
    PlErrorNone.Value() := None,
    PlErrorNoPackage.Value() := Some(NoPackageReceived),
    PlErrorInvalidSensorName.Value() := Some(InvalidSensorName),
    PlErrorInvalidArgument.Value() := Some(InvalidArgument),
    PlErrorInvalidFunctionCode.Value() := Some(InvalidFunctionCode),
    PlErrorInvalidCrc.Value() := Some(InvalidCrc),
    PlErrorRequestTimeout.Value() := Some(RequestTimeout),
    PlErrorTransport.Value() := Some(TransportError)
  ]

  /** A library status code as an error: success only for code 0, a catch-all for unmapped codes. */
  function ConvertPlError(code: int): (r: Option<Error>)
    ensures r.None? <==> code == PlErrorNone.Value()
    ensures r == Some(UnknownError) <==> PlError.FromValue(code).None?
  {
    if code in PL_ERROR_MAP then PL_ERROR_MAP[code] else Some(UnknownError)
  }

  /** Codes 1..7 become the named errors, in the order of the library's enumeration. */
  lemma ConvertPlErrorNamed()
    ensures ConvertPlError(PlErrorNoPackage.Value()) == Some(NoPackageReceived)
    ensures ConvertPlError(PlErrorInvalidSensorName.Value()) == Some(InvalidSensorName)
    ensures ConvertPlError(PlErrorInvalidArgument.Value()) == Some(InvalidArgument)
    ensures ConvertPlError(PlErrorInvalidFunctionCode.Value()) == Some(InvalidFunctionCode)
    ensures ConvertPlError(PlErrorInvalidCrc.Value()) == Some(InvalidCrc)
    ensures ConvertPlError(PlErrorRequestTimeout.Value()) == Some(RequestTimeout)
    ensures ConvertPlError(PlErrorTransport.Value()) == Some(TransportError)
  {
  }

  /** No two library codes share an error, and the message tells them apart. */
  lemma ConvertPlErrorInjective(a: int, b: int)
    requires 0 <= a <= 7 && 0 <= b <= 7 && a != b
    ensures ConvertPlError(a) != ConvertPlError(b)
    ensures ConvertPlError(a).Some? && ConvertPlError(b).Some? ==>
              Message(ConvertPlError(a).value) != Message(ConvertPlError(b).value)
  {
  }

  /** bufferSize: the size of a frame. */
  const BUFFER_SIZE := 133

  /**
   * checkCRC: a reply shorter than a frame is rejected outright; otherwise its
   * last byte must equal the checksum of all the bytes before it.
   */
  function CheckCrc(buff: seq<byte>): (ok: bool)
    ensures |buff| < BUFFER_SIZE ==> !ok
    ensures |buff| >= BUFFER_SIZE ==> (ok <==> buff[|buff| - 1] == Crc8.Checksum(buff[..|buff| - 1]))
  {
    if |buff| < BUFFER_SIZE then false
    else buff[|buff| - 1] == Crc8.Checksum(buff[..|buff| - 1])
  }

  /** On a serialised frame the gate checks exactly that the checksum field covers the PDU bytes. */
  lemma CheckCrcOfFrame(a: Adu)
    ensures BUFFER_SIZE == ADU_SIZE
    ensures CheckCrc(AduBytes(a)) <==> a.crc == Crc8.Checksum(PduBytes(a.pdu))
  {
  }

  /**
   * A reply that passed the gate no longer passes once any single byte of it
   * is changed, the checksum byte included.
   */
  lemma CheckCrcRejectsSingleByteCorruption(f: seq<byte>, g: seq<byte>, i: nat)
    requires CheckCrc(f)
    requires |g| == |f| && i < |f| && g[i] != f[i]
    requires forall j :: 0 <= j < |f| && j != i ==> g[j] == f[j]
    ensures !CheckCrc(g)
  {
    var n := |f|;
    if i == n - 1 {
      assert g[..n - 1] == f[..n - 1];
    } else {
      Crc8.DetectsSingleByteError(f[..n - 1], g[..n - 1], i);
    }
  }

  /**
   * What a request builder of the C library hands back: its status code, the
   * frame buffer it filled, and how many bytes of that buffer form the request.
   * The buffer is the wrapper's own 133-byte array, so a reported size never
   * exceeds it.
   */
  datatype BuildResult = BuildResult(code: int, buffer: seq<byte>, dataSize: int)

  type BuilderOutput = b: BuildResult | |b.buffer| == BUFFER_SIZE && 0 <= b.dataSize <= BUFFER_SIZE
    witness BuildResult(0, seq(133, _ => 0), 0)

  /** The six request builders of the C library, whose bodies are not part of this model. */
  datatype RequestLibrary = RequestLibrary(
    heartbitRequest: () -> BuilderOutput,
    getActualDataRequest: string -> BuilderOutput,
    getHistoryDataRequest: (string, uint16) -> BuilderOutput,
    getSensorInfoRequest: string -> BuilderOutput,
    getMcuInfoRequest: () -> BuilderOutput,
    setReadingPeriodRequest: (string, uint16) -> BuilderOutput)

  /** One exchange: the calls it makes on the transport, and the bytes and error it returns. */
  datatype Outcome = Outcome(events: seq<Event>, resp: seq<byte>, err: Option<Error>)

  /** The exchange every Wrap...Request method performs with its builder's output. */
  function Transaction(b: BuilderOutput, env: Environment, history: seq<Event>): (o: Outcome)
    // A builder failure is returned as converted, and nothing reaches the transport.
    ensures b.code != PlErrorNone.Value() ==> o.events == [] && o.resp == [] && o.err == ConvertPlError(b.code)
    // Otherwise the first call is the one write, of the first dataSize bytes of the built buffer.
    ensures b.code == PlErrorNone.Value() ==>
              1 <= |o.events| <= 2 &&
              o.events[0] == Wrote(b.buffer[..b.dataSize], env.onWrite(history, b.buffer[..b.dataSize]))
    // A failed write is returned as it is, and no read follows.
    ensures |o.events| == 1 ==> o.events[0].Wrote? && o.events[0].err.Some? && o.err == o.events[0].err
    // A read follows only a successful write, once, and sees the write in the trace.
    ensures |o.events| == 2 ==>
              o.events[0].Wrote? && o.events[0].err.None? &&
              o.events[1] == ReadBack(env.onRead(history + [o.events[0]]))
    // A failed read is returned as it is.
    ensures |o.events| == 2 && o.events[1].result.Err? ==> o.err == Some(o.events[1].result.error)
    // A reply that fails the gate is an invalid checksum.
    ensures |o.events| == 2 && o.events[1].result.Ok? && !CheckCrc(o.events[1].result.value) ==>
              o.err == Some(InvalidChecksum)
    // Success exactly when a reply was read and passed the gate; it is then returned byte for byte.
    ensures o.err.None? <==> |o.events| == 2 && o.events[1].result.Ok? && CheckCrc(o.events[1].result.value)
    ensures o.err.None? ==> o.resp == o.events[1].result.value && |o.resp| >= BUFFER_SIZE
    ensures o.err.Some? ==> o.resp == []
  {
    match ConvertPlError(b.code)
    case Some(e) => Outcome([], [], Some(e))
    case None =>
      var req := b.buffer[..b.dataSize];
      var written := Wrote(req, env.onWrite(history, req));
      if written.err.Some? then
        Outcome([written], [], written.err)
      else
        var reply := env.onRead(history + [written]);
        var events := [written, ReadBack(reply)];
        match reply
        case Err(e) => Outcome(events, [], Some(e))
        case Ok(resp) =>
          if !CheckCrc(resp) then Outcome(events, [], Some(InvalidChecksum))
          else Outcome(events, resp, None)
  }

  class UARTWrapper {
    const processor: PicoProcessor
    const lib: RequestLibrary

    constructor (processor: PicoProcessor, lib: RequestLibrary)
      ensures this.processor == processor && this.lib == lib
    {
      this.processor := processor;
      this.lib := lib;
    }

    /** The transport's trace has grown by the exchange's calls, and resp, err are its result. */
    ghost predicate Performed(o: Outcome, before: seq<Event>, resp: seq<byte>, err: Option<Error>)
      reads processor
    {
      processor.trace == before + o.events && resp == o.resp && err == o.err
    }

    /** The body shared by the six exchanges. */
    method Exchange(b: BuilderOutput) returns (resp: seq<byte>, err: Option<Error>)
      modifies processor
      ensures Performed(Transaction(b, processor.env, old(processor.trace)), old(processor.trace), resp, err)
    {
      err := ConvertPlError(b.code);
      if err.Some? {
        return [], err;
      }
      var reqBuffer := b.buffer[..b.dataSize];
      err := processor.Write(reqBuffer);
      if err.Some? {
        return [], err;
      }
      var r := processor.Read();
      if r.Err? {
        return [], Some(r.error);
      }
      if !CheckCrc(r.value) {
        return [], Some(InvalidChecksum);
      }
      return r.value, None;
    }

    method WrapHeartbitRequest() returns (resp: seq<byte>, err: Option<Error>)
      modifies processor
      ensures Performed(Transaction(lib.heartbitRequest(), processor.env, old(processor.trace)),
                        old(processor.trace), resp, err)
    {
      resp, err := Exchange(lib.heartbitRequest());
    }

    method WrapGetActualDataRequest(sensorName: string) returns (resp: seq<byte>, err: Option<Error>)
      modifies processor
      ensures Performed(Transaction(lib.getActualDataRequest(sensorName), processor.env, old(processor.trace)),
                        old(processor.trace), resp, err)
    {
      resp, err := Exchange(lib.getActualDataRequest(sensorName));
    }

    method WrapGetHistoryDataRequest(sensorName: string, num: uint16) returns (resp: seq<byte>, err: Option<Error>)
      modifies processor
      ensures Performed(Transaction(lib.getHistoryDataRequest(sensorName, num), processor.env, old(processor.trace)),
                        old(processor.trace), resp, err)
    {
      resp, err := Exchange(lib.getHistoryDataRequest(sensorName, num));
    }

    method WrapGetSensorInfoRequest(sensorName: string) returns (resp: seq<byte>, err: Option<Error>)
      modifies processor
      ensures Performed(Transaction(lib.getSensorInfoRequest(sensorName), processor.env, old(processor.trace)),
                        old(processor.trace), resp, err)
    {
      resp, err := Exchange(lib.getSensorInfoRequest(sensorName));
    }

    method WrapGetMcuInfoRequest() returns (resp: seq<byte>, err: Option<Error>)
      modifies processor
      ensures Performed(Transaction(lib.getMcuInfoRequest(), processor.env, old(processor.trace)),
                        old(processor.trace), resp, err)
    {
      resp, err := Exchange(lib.getMcuInfoRequest());
    }

    method WrapSetReadingPeriodRequest(sensorName: string, delay: uint16) returns (resp: seq<byte>, err: Option<Error>)
      modifies processor
      ensures Performed(Transaction(lib.setReadingPeriodRequest(sensorName, delay), processor.env, old(processor.trace)),
                        old(processor.trace), resp, err)
    {
      resp, err := Exchange(lib.setReadingPeriodRequest(sensorName, delay));
    }

    method Close() returns (err: Option<Error>)
      modifies processor
      ensures err == processor.env.onClose(old(processor.trace))
      ensures processor.trace == old(processor.trace) + [Closed(err)]
    {
      err := processor.Close();
    }
  }
}
