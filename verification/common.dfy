/** Values shared by the session client, the hotkey manager and the pin list. */
module Common {

  /** A value that may be absent: JavaScript's `null` or `undefined`. */
  datatype Option<+T> = None | Some(value: T)

  /**
   * One entry of the browser's key-value storage, seen through the JSON
   * decoding the client applies to it. `Missing` stands for no entry and for
   * an empty text (both are falsy in the source's `if (stored)` tests),
   * `Unparsable` for a text `JSON.parse` rejects, `Parsed` for a text that
   * decodes to a value of the expected shape.
   */
  datatype Stored<+T> = Missing | Unparsable | Parsed(value: T)

  /** The reserved action id that toggles streaming. */
  const ControlStream: string := "control_stream"

  /** The reserved action id that toggles recording. */
  const ControlRecord: string := "control_record"
}
