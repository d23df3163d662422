/** The JSON message protocol spoken between the browser and the relay server,
    as closed datatypes: one per direction, plus a frame wrapper that keeps
    frames whose `type` matches no case, and frames that cannot be read at all,
    as variants of their own. */
module Protocol {

  datatype Option<+T> = None | Some(value: T)

  type Byte = bv8

  /** Encoded audio as it travels on the wire (an array of byte values). */
  type Audio = seq<Byte>

  /** Messages the browser sends to the server (field `type`). */
  datatype ClientMsg =
    | StartSession
    | AudioData(audioData: Audio)
    | Interrupt
    | EndSession

  /** Messages the server sends to the browser. `audioData` is absent when the
      upstream response carried none (JSON drops an undefined field). */
  datatype ServerMsg =
    | SessionStarted
    | AudioResponse(audioData: Option<Audio>, text: string)
    | Error(message: string)

  /** One received frame after JSON parsing: a message of a known type, a
      well-formed frame whose `type` is none of the known ones, or a frame whose
      parsing (or whose `type` lookup) throws, with the exception's message. */
  datatype Frame<M> =
    | Parsed(msg: M)
    | UnknownType(tag: string)
    | Malformed(reason: string)

  /** Error texts the upstream adapter sends to the browser. */
  const FailedToStart: string := "Failed to start voice session"
  const FailedToProcess: string := "Failed to process audio"

  /** `x || ''` for an optional string: a missing or empty text becomes ''. */
  function TextOrEmpty(text: Option<string>): (r: string)
    ensures text.None? ==> r == ""
    ensures text.Some? ==> r == text.value
  {
    match text
    case None => ""
    case Some(t) => t
  }
}
