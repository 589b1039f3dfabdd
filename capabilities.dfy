/**
 * The capability set every shape of the scene graph provides (Draw, Name,
 * Move, Lock, Visible, Container, Event), reduced to what is not rendering:
 * the pointer events a shape receives and the default event handlers.
 *
 * A handler answers whether it consumed the event: true stops other handlers
 * from being invoked, false lets the event propagate further.
 */
module Capabilities {

  import opened Geometry

  /** GDK's modifier bit for a held primary button (1 << 8). */
  const BUTTON1_MASK: nat := 0x100

  /**
   * A pointer event in user space: the modifier state of a motion, or the
   * button number of a press or release, with the pointer position.
   */
  datatype Event =
    | MotionNotify(state: nat, pos: Vec2)
    | ButtonPress(button: nat, pos: Vec2)
    | ButtonRelease(button: nat, pos: Vec2)

  /** The default handler of every event: it never consumes, so the event propagates. */
  function DefaultResponse(e: Event): (consumed: bool)
    ensures !consumed
  {
    false
  }
}
