/** The ways loading the native library can fail. */
module Errors {

  datatype BootError =
    | UnsupportedOs             // no platform rule matched
    | LibraryNotFound           // no class-path resource for the chosen platform
    | IoFailure                 // creating the temporary directory or copying the library failed
    | LoadFailure(path: string) // the loader refused the file

  /** The message of the exception raised when no platform rule matched. */
  const UnsupportedOsMessage := "JNI library can't be loaded because OS wasn't detected as supported."

  /** The message of the exception raised when the platform's resource is missing. */
  const LibraryNotFoundMessage := "Library wasn't found."

  /** The message of the exception each failure raises; the other two carry their cause's description. */
  function Message(e: BootError): string
  {
    match e
    case UnsupportedOs => UnsupportedOsMessage
    case LibraryNotFound => LibraryNotFoundMessage
    case IoFailure => "java.io.IOException"
    case LoadFailure(p) => "Can't load library: " + p
  }
}
