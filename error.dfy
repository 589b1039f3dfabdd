/**
 * The program's error type: either an I/O error or a fixed message, with
 * its display text, description, cause, and the conversions that build it.
 */
module Errors {

  import opened Wrappers

  /**
   * An operating-system I/O error, reduced to the two texts the error type
   * reads from it: how it displays and its description.
   */
  datatype IoError = IoError(display: string, description: string)

  datatype Error = Io(err: IoError) | Message(msg: string)

  const IO_PREFIX: string := "IO Error: "
  const MESSAGE_PREFIX: string := "Message Error: "

  /** The display text: a prefix naming the kind, then the wrapped error or the message. */
  function Display(e: Error): (text: string)
    ensures e.Io? ==> IO_PREFIX <= text && text[|IO_PREFIX|..] == e.err.display
    ensures e.Message? ==> MESSAGE_PREFIX <= text && text[|MESSAGE_PREFIX|..] == e.msg
  {
    match e
    case Io(err) => IO_PREFIX + err.display
    case Message(msg) => MESSAGE_PREFIX + msg
  }

  /** The short description: the message itself, or the I/O error's own description. */
  function Description(e: Error): (text: string)
    ensures e.Message? ==> text == e.msg
    ensures e.Io? ==> text == e.err.description
  {
    match e
    case Io(err) => err.description
    case Message(msg) => msg
  }

  /** The underlying error: present exactly for an I/O error. */
  function Cause(e: Error): (c: Option<IoError>)
    ensures c.Some? <==> e.Io?
    ensures c.Some? ==> c.value == e.err
  {
    match e
    case Io(err) => Some(err)
    case Message(_) => None
  }

  /** Conversion from an I/O error. */
  function FromIo(err: IoError): (e: Error)
    ensures Cause(e) == Some(err)
    ensures Description(e) == err.description
  {
    Io(err)
  }

  /** Conversion from a fixed message. */
  function FromMessage(message: string): (e: Error)
    ensures Cause(e) == None
    ensures Description(e) == message
    ensures Display(e) == MESSAGE_PREFIX + message
  {
    Message(message)
  }

  /**
   * The display text tells the two kinds apart and, for a message error,
   * gives back the message: two errors that display alike are of the same
   * kind, and two message errors that display alike carry the same message.
   */
  lemma DisplayDistinguishes(e1: Error, e2: Error)
    requires Display(e1) == Display(e2)
    ensures e1.Io? <==> e2.Io?
    ensures e1.Message? ==> e1 == e2
  {
    assert Display(e1)[0] == Display(e2)[0];
    if e1.Message? && e2.Message? {
      var n := |MESSAGE_PREFIX|;
      assert e1.msg == Display(e1)[n..];
      assert e2.msg == Display(e2)[n..];
    }
  }
}
