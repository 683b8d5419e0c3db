/**
 * Push messages from the event stream.  A message is taken as already
 * parsed from its JSON text; the client's listener dispatches on `event`.
 */
module StreamMessages {

  /** `{ event, identifier }` as parsed from a stream message. */
  datatype StreamMessage = StreamMessage(event: string, identifier: string)
}
