/**
 * The ways page assembly and its helpers fail. In the Java code each of these
 * is a thrown exception; here they are the error half of a `Result`.
 */
module Failures {
  import opened Wrappers

  /** The Java exception class a failure surfaces as. */
  datatype ExceptionKind =
    | UncheckedIO       // java.io.UncheckedIOException
    | NoSuchElement     // java.util.NoSuchElementException
    | NullPointer       // java.lang.NullPointerException
    | DomError          // org.w3c.dom.DOMException
    | IllegalArgument   // java.lang.IllegalArgumentException

  datatype Failure =
    | FileUnreadable(path: string)        // an embedded file cannot be opened or read
    | FileMalformed(path: string)         // an embedded file is not well-formed XML
    | StyleResourceMissing                // the bundled style.css resource is absent
    | NoSourcesProvider(system: string)   // no provider handles this source-control system
    | NoChangelogParser                   // no changelog parser provider is installed
    | NoChangelogWriter                   // no changelog XHTML writer provider is installed
    | ChangelogUnreadable(path: string)   // the changelog file cannot be opened
    | ChangelogMalformed(path: string)    // the changelog file cannot be parsed
    | RenderedChangelogMalformed          // the writer's output does not parse back as XML
    | NullArgument(what: string)          // Objects.requireNonNull(x, what) on a null x
    | WrongDocument                       // DOM appendChild of a node owned by another document
    | InvalidProxyPort(port: int)         // InetSocketAddress rejects a port outside 0..65535
    | NullValue(what: string)             // a method called on a null value the project left unset
    | InvalidUri(text: string)            // URI.create rejects text that is not a URI
  {
    /** The exception class the source throws for this failure. */
    function Exception(): ExceptionKind {
      match this
      case FileUnreadable(_) => UncheckedIO
      case FileMalformed(_) => UncheckedIO
      case StyleResourceMissing => NullPointer
      case NoSourcesProvider(_) => NoSuchElement
      case NoChangelogParser => NoSuchElement
      case NoChangelogWriter => NoSuchElement
      case ChangelogUnreadable(_) => UncheckedIO
      case ChangelogMalformed(_) => UncheckedIO
      case RenderedChangelogMalformed => UncheckedIO
      case NullArgument(_) => NullPointer
      case WrongDocument => DomError
      case InvalidProxyPort(_) => IllegalArgument
      case NullValue(_) => NullPointer
      case InvalidUri(_) => IllegalArgument
    }

    /**
     * The exception message where the source fixes it; None where the message
     * comes from a library exception that the model does not describe.
     */
    function Message(): Option<string> {
      match this
      case NoSourcesProvider(system) =>
        Some("No providers are available for source repositories of type: " + system)
      case NoChangelogParser => Some("No XML changelog parser providers are available")
      case NoChangelogWriter => Some("No XHTML changelog writer providers are available")
      case NullArgument(what) => Some(what)
      case _ => None
    }
  }
}
