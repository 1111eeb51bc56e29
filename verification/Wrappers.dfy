/** The result types that stand for the C++ exceptions and optional values. */
module Wrappers {

  datatype Option<+T> = None | Some(value: T)

  /** Every way in which the modelled code throws. */
  datatype Error =
    | EndOfBuffer          // io_bytes::check_enough, skip
    | UnknownCommand       // not_implemented
    | BadProtocol          // the protocol version is not 2
    | UnknownInitiator     // an OK for somebody else
    | BadMidiPacket        // bad_midi_packet
    | BadSysEx             // bad_sysex_exception
    | OrphanData           // a data octet where a command has to start

  /** A value, or the exception that was thrown instead. */
  datatype Result<+T> = Success(value: T) | Failure(error: Error)

  /** The outcome of a call that returns nothing. */
  datatype Outcome = Pass | Fail(error: Error)
}
