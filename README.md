# PICO serial driver: host-side protocol layer

This project models the host side of the PICO serial protocol driver
(`pico_go`) and proves properties of the model. It covers three layers.

- **Wire layout** (`picolib.dfy`, `crc8.dfy`). These model the constants and
  packed structures of the C protocol library header. A frame (ADU) is a
  132-byte PDU followed by one checksum byte. The PDU holds the function code
  at offset 0, the device error code at 1, the 16-bit little-endian `args` at
  2-3 and a 128-byte payload at 4-131. `args` is read least significant byte
  first, as the Go client decodes it (client/client.go:29). The checksum sits at offset 132. The
  library's error and function enumerations are numbered 0..7 and 0..5.
  `calculate_crc8` is defined as the MSB-first CRC-8 with polynomial 0x07 and
  initial value 0x00. The library fixes those two parameters but not the rest,
  so no input or output reflection and no final XOR (CRC-8/SMBUS) are
  assumptions of this model.
- **Go wrapper** (`errors.dfy`, `uart.dfy`, `cwrapper.dfy`).
  - `ConvertPlError` translates library status codes into Go errors.
  - `checkCRC` is the gate every reply must pass.
  - `UARTWrapper` runs the six request/response exchanges and `Close`. It is a
    class over a `PicoProcessor` transport.
  - The transport is a class whose `trace` records every write, read and close
    with its result. The far side is an `Environment`: each answer is a function
    of the trace so far.
  - The six C request builders are function-valued fields of a
    `RequestLibrary`. Each returns a status code, a 133-byte buffer and the
    request size.
  - Every exchange is specified by one function, `Transaction`. It gives the
    calls made on the transport and the bytes and error returned, and each
    `Wrap...Request` method is proved to perform exactly that function's result.
- **Client** (`models.dfy`, `client.dfy`).
  - `convertToResponseModel` decodes a reply into an `McuResponse`.
  - The `Client` methods delegate to the wrapper and decode a successful reply.
  - End to end: a reply frame whose checksum covers its PDU is decoded into
    its header fields and its first 127 payload bytes. This holds whatever
    error code the device put in the frame.

The main proved properties:
- The error map is total. Code 0 is the only success. Codes 1..7 give seven
  distinct named errors, and every other code gives "unknown error".
- Every field written at its offset is read back.
- The checksum detects every single-byte corruption of a frame.
- In each exchange, a builder failure touches no transport. After that there
  is exactly one write of the first `dataSize` bytes, then at most one read,
  with no retry. The caller gets the bytes read exactly when they pass the gate.
- The decoder drops the last payload byte.

What the code does that a reader may not expect:
- The decoder slices `buff[4 : len(buff)-2]` (client/client.go:30), which
  drops the checksum and one byte more. For a 133-byte frame the result is payload offsets 4..130,
  127 bytes. Offset 131 is lost (`PicoClient.DecodeFrame`,
  `PicoClient.DecodeIgnoresLastPayloadByte`).
- The reply's device error byte is never turned into an error. It is only
  copied into `ErrCode` (client/client.go:28, `PicoClient.SealedReplyDecoded`).
  `ConvertPlError` is applied to the builder's return code only
  (internal/wrapper/cwrapper.go:109-111).
- A reply shorter than a frame fails with "invalid checksum"
  (internal/wrapper/cwrapper.go:78-80, 125-127). There is no separate
  malformed-frame error.
- There is no lock around an exchange, and no retry.
- `Close` is whatever the transport's close does
  (internal/wrapper/cwrapper.go:278-280, client/client.go:82-84). The wrapper and client add
  no idempotence of their own.

## Model

| member | source | states |
|---|---|---|
| Errors.Message | internal/wrapper/cwrapper.go:34-48 | the text of each error: the seven library errors, "unknown error" and "invalid checksum" have fixed non-empty texts, and a transport error keeps the transport's own text |
| Errors.MessagesDistinct | internal/wrapper/cwrapper.go:34-48 | the nine texts the protocol layer raises itself are pairwise different |
| Picolib.PlError.FromValue | internal/wrapper/lib/include/picolib.h:12-23 | a numeric value names an error constant exactly when it is in 0..7, and that constant's value is the number |
| Picolib.PlFunc.FromValue | internal/wrapper/lib/include/picolib.h:26-33 | a numeric value names a function code exactly when it is in 0..5, and that constant's value is the number |
| Picolib.EnumValuesRoundTrip | internal/wrapper/lib/include/picolib.h:12-33 | every enumeration constant is recovered from its numeric value, so the numbering is one-to-one |
| Picolib.LittleEndian16 | internal/wrapper/lib/include/picolib.h:40 | the 16-bit field stored in bytes lo, hi is lo + 256·hi, and splitting it again gives lo and hi back |
| Picolib.LittleEndian16OfBytes | internal/wrapper/lib/include/picolib.h:40 | joining a 16-bit value's low and high bytes gives the value back |
| Picolib.PduBytes | internal/wrapper/lib/include/picolib.h:37-42 | a packed PDU is 132 bytes: func_code at 0, err_code at 1, args little-endian at 2-3, the 128-byte payload at 4-131 |
| Picolib.AduBytes | internal/wrapper/lib/include/picolib.h:44-47 | a packed ADU is 133 bytes: the PDU bytes, then the checksum at offset 132 |
| Picolib.AduOf | internal/wrapper/lib/include/picolib.h:36-48 | every 133-byte string is the serialisation of the frame read from it |
| Picolib.AduRoundTrip | internal/wrapper/lib/include/picolib.h:36-48 | writing a frame's fields at their offsets and reading them back recovers every field |
| Crc8.Checksum | internal/wrapper/lib/include/picolib.h:55-59 | calculate_crc8 as the assumed CRC-8/SMBUS register update (polynomial 0x07 and initial value 0x00 of picolib.h:7-8): the empty string has the initial value, and changing the last byte always changes the checksum; its other properties are `Crc8.UpdateAppend` and `Crc8.DetectsSingleByteError` |
| Crc8.LastByteDetected | internal/wrapper/lib/include/picolib.h:55-59 | after a common prefix, two different last bytes give two different registers |
| Crc8.UpdateAppend | internal/wrapper/lib/include/picolib.h:55-59 | the CRC register is the only state: feeding s then t is the same as feeding s + t |
| Crc8.ShiftBitsInjective | internal/wrapper/lib/include/picolib.h:7 | clocking the shift register with polynomial 0x07 maps distinct registers to distinct registers |
| Crc8.UpdateInjective | internal/wrapper/lib/include/picolib.h:55-59 | registers that differ stay different after any common data |
| Crc8.DetectsSingleByteError | internal/wrapper/lib/include/picolib.h:55-59 | two equal-length strings that differ in exactly one byte have different CRC-8 values |
| CWrapper.ConvertPlError | internal/wrapper/cwrapper.go:43-49 | the result is nil exactly for code 0, and is the "unknown error" exactly for codes outside the enumeration |
| CWrapper.ConvertPlErrorNamed | internal/wrapper/cwrapper.go:20-41 | codes 1..7 map to no package, invalid sensor name, invalid argument, invalid function code, invalid CRC, request timeout and transport error, in enumeration order |
| CWrapper.ConvertPlErrorInjective | internal/wrapper/cwrapper.go:32-41 | two different codes in 0..7 give different results, with different messages |
| CWrapper.CheckCrc | internal/wrapper/cwrapper.go:77-87 | a buffer shorter than 133 bytes fails; a longer one passes exactly when its last byte is the CRC-8 of all the bytes before it |
| CWrapper.CheckCrcOfFrame | internal/wrapper/cwrapper.go:82-86 | on a serialised frame the gate passes exactly when the checksum field is the CRC-8 of the PDU bytes |
| CWrapper.CheckCrcRejectsSingleByteCorruption | internal/wrapper/cwrapper.go:82-86 | a reply that passes the gate fails it once any one of its bytes is changed, the checksum byte included |
| CWrapper.Transaction | internal/wrapper/cwrapper.go:104-130 | a builder failure returns the converted code with no write and no read; otherwise one write, of the first dataSize bytes of the built buffer, comes first, a write error returns at once, at most one read follows and sees the write, a read error is passed on, a gate failure is "invalid checksum" with no bytes, and success holds exactly when the read succeeded and passed the gate, returning the bytes read |
| CWrapper.UARTWrapper.Exchange | internal/wrapper/cwrapper.go:104-130 | the shared body extends the transport trace by exactly the calls of `Transaction` and returns its bytes and error |
| CWrapper.UARTWrapper.WrapHeartbitRequest | internal/wrapper/cwrapper.go:104-130 | performs `Transaction` on the heartbit builder's output |
| CWrapper.UARTWrapper.WrapGetActualDataRequest | internal/wrapper/cwrapper.go:132-159 | performs `Transaction` on the actual-data builder's output for the sensor name |
| CWrapper.UARTWrapper.WrapGetHistoryDataRequest | internal/wrapper/cwrapper.go:161-189 | performs `Transaction` on the history builder's output for the sensor name and count |
| CWrapper.UARTWrapper.WrapGetSensorInfoRequest | internal/wrapper/cwrapper.go:191-219 | performs `Transaction` on the sensor-info builder's output for the sensor name |
| CWrapper.UARTWrapper.WrapGetMcuInfoRequest | internal/wrapper/cwrapper.go:221-245 | performs `Transaction` on the MCU-info builder's output |
| CWrapper.UARTWrapper.WrapSetReadingPeriodRequest | internal/wrapper/cwrapper.go:247-276 | performs `Transaction` on the reading-period builder's output for the sensor name and delay |
| CWrapper.UARTWrapper.Close | internal/wrapper/cwrapper.go:278-280 | returns the transport's close result and records one close on the trace |
| Uart.PicoProcessor.Write | internal/uart/uart.go:11 | returns the far side's answer to the write and appends the write with its result to the trace |
| Uart.PicoProcessor.Read | internal/uart/uart.go:12 | returns the far side's reply and appends the read with its result to the trace |
| Uart.PicoProcessor.Close | internal/uart/uart.go:13 | returns the far side's close result and appends the close to the trace |
| PicoClient.ConvertToResponseModel | client/client.go:25-31 | FuncCode is byte 0, ErrCode is byte 1, Args is byte 2 + 256·byte 3, and Buffer is bytes 4 up to len−2, of length len−6 |
| PicoClient.DecodeFrame | client/client.go:25-31 | decoding a serialised frame gives its func_code, err_code, args and the first 127 payload bytes |
| PicoClient.DecodeIgnoresLastPayloadByte | client/client.go:30 | changing payload offset 131 of a frame never changes the decoded reply |
| PicoClient.Respond | client/client.go:35-39 | a wrapper error is returned as it is with no reply; otherwise the decoded reply is returned with no error |
| PicoClient.SealedReplyDecoded | client/client.go:28-39 | when the request is built and written and the reply is a frame whose checksum covers its PDU, the call succeeds with its header fields and its first 127 payload bytes, whatever its device error byte |
| PicoClient.Client.HeatbitRequest | client/client.go:34-40 | performs the heartbit exchange and answers with `Respond` on its result |
| PicoClient.Client.GetActualDataRequest | client/client.go:42-48 | performs the actual-data exchange and answers with `Respond` on its result |
| PicoClient.Client.GetHistoryDataRequest | client/client.go:50-56 | performs the history exchange and answers with `Respond` on its result |
| PicoClient.Client.GetSensorInfoRequest | client/client.go:58-64 | performs the sensor-info exchange and answers with `Respond` on its result |
| PicoClient.Client.GetMcuInfoRequest | client/client.go:66-72 | performs the MCU-info exchange and answers with `Respond` on its result |
| PicoClient.Client.SetReadingPeriodRequest | client/client.go:74-80 | performs the reading-period exchange and answers with `Respond` on its result |
| PicoClient.Client.Close | client/client.go:82-84 | returns exactly the wrapper's close result |

## Left out

- Serial I/O is not modelled: opening the port, baud rate, the 2-second read timeout, and the printed byte count on a failed write. The transport is the abstract `PicoProcessor`, whose answers are functions of the trace.
- Constructors that open a port (`NewUartProcessor`, `NewGoWrapper`, `NewClient`) are left out because they only do I/O. The Dafny constructors take an already built transport, or wrapper, instead.
- uart.Read returns at most 133 bytes. The model does not assume this, so its properties hold for replies of any length.
- The bodies of the C request builders, `pl_pack`, `pl_unpack`, `pl_send`/`pl_recv`, `pl_reader`, `init_pico`, the transport setters, `tcp_checksum` and `TCP_PROTOCOl_CODE` are not modelled. Their code is not part of this model. The builders are opaque functions, and how they place sensor names or arguments in a request is not invented.
- A builder reporting more than 133 bytes is excluded by the `BuilderOutput` type. The buffer is the wrapper's own 133-byte array.
- Crc8.Checksum: the body of `calculate_crc8` is not visible. Its reflection and final-XOR choices are assumed, as described above.
- cgo memory handling is not modelled. `C.CString` and `C.free` have no counterpart, and a sensor name is passed as a string. A NUL inside a Go string, which C would truncate at, is not modelled.
- Go's distinction between a nil slice and an empty one on error returns is not kept. Both are the empty sequence.
- `Client` may hold any `CWrapper` implementation. The model fixes it to `UARTWrapper`, the only implementation in the repository.
- Concurrency is not modelled. The code has no locking.
- The interactive example program is left out.
