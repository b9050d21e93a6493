/**
 * The transport the wrapper talks through: the three-operation processor
 * interface (write a request, read a reply, close). What sits behind it (a
 * serial port, a test double, the device itself) is not modelled; its
 * behaviour is an Environment, which answers each call as a function of
 * everything that has happened on the transport before. The processor
 * records every call, with its result, in `trace`.
 */
module Uart {
  import opened Errors
  import opened Picolib

  datatype Event =
    | Wrote(data: seq<byte>, err: Option<Error>)
    | ReadBack(result: Result<seq<byte>>)
    | Closed(err: Option<Error>)

  /** How the far side answers each call, given the trace so far. */
  datatype Environment = Environment(
    onWrite: (seq<Event>, seq<byte>) -> Option<Error>,
    onRead: seq<Event> -> Result<seq<byte>>,
    onClose: seq<Event> -> Option<Error>)

  class PicoProcessor {
    const env: Environment
    var trace: seq<Event>

    constructor (env: Environment)
      ensures this.env == env && trace == []
    {
      this.env := env;
      trace := [];
    }

    method Write(buffer: seq<byte>) returns (err: Option<Error>)
      modifies this
      ensures err == env.onWrite(old(trace), buffer)
      ensures trace == old(trace) + [Wrote(buffer, err)]
    {
      err := env.onWrite(trace, buffer);
      trace := trace + [Wrote(buffer, err)];
    }

    method Read() returns (r: Result<seq<byte>>)
      modifies this
      ensures r == env.onRead(old(trace))
      ensures trace == old(trace) + [ReadBack(r)]
    {
      r := env.onRead(trace);
      trace := trace + [ReadBack(r)];
    }

    method Close() returns (err: Option<Error>)
      modifies this
      ensures err == env.onClose(old(trace))
      ensures trace == old(trace) + [Closed(err)]
    {
      err := env.onClose(trace);
      trace := trace + [Closed(err)];
    }
  }
}
