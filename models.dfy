/** The decoded reply handed to the caller of the client. */
module Models {
  import opened Picolib

  datatype McuResponse = McuResponse(funcCode: byte, errCode: byte, args: uint16, buffer: seq<byte>)
}
