/**
 * The line-arrow shape: a straight or curved stroke between two end points,
 * with direction vectors for the curve, an arrow head, and the interactive
 * editing engine that turns pointer events into edits.
 *
 * Cairo's hit tests (`in_stroke`/`in_fill` against each drawn controller)
 * are inputs (`Hits`), and so are the extents cairo reports for each drawn
 * part (`ArrowProbes`). The event handlers are specified by the pure
 * transition function `Handle` over the `ArrowState` snapshot of a shape.
 */
module LineArrows {

  import opened Wrappers
  import opened Geometry
  import opened Priority
  import opened Containers
  import opened Capabilities

  /**
   * The edit armed by a button press. `MoveBody` keeps the pointer position
   * at press time relative to each end point (pointer - a, pointer - b).
   */
  datatype Action =
    | MoveBody(fromA: Vec2, fromB: Vec2)
    | MoveStartPoint
    | MoveEndPoint
    | MoveGoDirection
    | MoveArriveDirection

  /**
   * What cairo answers for the pointer position, controller by controller:
   * start-point handle, end-point handle, go-direction handle and
   * arrive-direction handle (in stroke or in fill), segment (in stroke),
   * arrow head (in fill).
   */
  datatype Hits = Hits(startHandle: bool, endHandle: bool, goHandle: bool,
                       arriveHandle: bool, segmentStroke: bool, headFill: bool)
  {
    /** The controllers in the order they are tried. */
    function Targets(): (t: seq<bool>)
      ensures |t| == 6
    {
      [startHandle, endHandle, goHandle, arriveHandle, segmentStroke, headFill]
    }

    predicate Any() {
      startHandle || endHandle || goHandle || arriveHandle || segmentStroke || headFill
    }
  }

  /** Bounding boxes cairo reports (in device space) for each drawn part. */
  datatype ArrowProbes = ArrowProbes(goHandle: Rect, arriveHandle: Rect, startHandle: Rect,
                                     endHandle: Rect, segmentStroke: Rect, headFill: Rect)

  /** The parts whose extents are collected, in the order they are pushed. */
  function Probed(curveLike: bool, p: ArrowProbes): (boxes: seq<Rect>)
    ensures |boxes| == if curveLike then 6 else 4
  {
    (if curveLike then [p.goHandle, p.arriveHandle] else [])
      + [p.startHandle, p.endHandle, p.segmentStroke, p.headFill]
  }

  /** What the editing engine reads and writes of a shape. */
  datatype ArrowState = ArrowState(segment: Segment, goDir: Vec2, arriveDir: Vec2,
                                   lock: bool, visible: bool, selected: bool,
                                   action: Option<Action>)

  /** Radius of the controller handles drawn for a stroke of the given width. */
  function Radius(width: real): (r: real)
    ensures 3.0 <= r <= 9.0
    ensures 10.0 <= width <= 20.0 ==> r == width * 0.4
  {
    if width < 10.0 then 3.0
    else if width > 20.0 then 9.0
    else width * 0.40
  }

  /** Wider strokes never get smaller handles. */
  lemma RadiusMonotone(w1: real, w2: real)
    requires w1 <= w2
    ensures Radius(w1) <= Radius(w2)
  {
  }

  /** The action armed by a hit on controller `k` (numbered as in `Hits.Targets`). */
  function TargetAction(s: ArrowState, pos: Vec2, k: nat): Action
    requires k < 6
  {
    var body := MoveBody(pos.Minus(s.segment.a), pos.Minus(s.segment.b));
    if k == 0 then (if s.selected then MoveStartPoint else body)
    else if k == 1 then (if s.selected then MoveEndPoint else body)
    else if k == 2 then MoveGoDirection
    else if k == 3 then MoveArriveDirection
    else body
  }

  /**
   * The controller under the pointer: the first controller hit, in the order
   * start, end, go, arrive, segment, head, decides the action; none is armed
   * when nothing is hit.
   */
  function SelectController(s: ArrowState, pos: Vec2, hits: Hits): (r: Option<Action>)
    ensures r.None? <==> !hits.Any()
    ensures r.Some? ==> FirstTrue(hits.Targets()) < 6
                        && r.value == TargetAction(s, pos, FirstTrue(hits.Targets()))
  {
    var t := hits.Targets();
    var body := MoveBody(pos.Minus(s.segment.a), pos.Minus(s.segment.b));
    if hits.startHandle then
      FirstTrueUnique(t, 0);
      Some(if s.selected then MoveStartPoint else body)
    else if hits.endHandle then
      FirstTrueUnique(t, 1);
      Some(if s.selected then MoveEndPoint else body)
    else if hits.goHandle then
      FirstTrueUnique(t, 2);
      Some(MoveGoDirection)
    else if hits.arriveHandle then
      FirstTrueUnique(t, 3);
      Some(MoveArriveDirection)
    else if hits.segmentStroke then
      FirstTrueUnique(t, 4);
      Some(body)
    else if hits.headFill then
      FirstTrueUnique(t, 5);
      Some(body)
    else
      None
  }

  /** On a shape that is not selected yet, a click never arms an end-point move. */
  lemma FirstClickMovesBody(s: ArrowState, pos: Vec2, hits: Hits)
    requires !s.selected
    ensures SelectController(s, pos, hits) != Some(MoveStartPoint)
    ensures SelectController(s, pos, hits) != Some(MoveEndPoint)
  {
  }

  /** A direction handle beats the segment and the head, selected or not. */
  lemma DirectionHandleBeatsBody(s: ArrowState, pos: Vec2, hits: Hits)
    requires !hits.startHandle && !hits.endHandle
    ensures hits.goHandle ==> SelectController(s, pos, hits) == Some(MoveGoDirection)
    ensures !hits.goHandle && hits.arriveHandle ==> SelectController(s, pos, hits) == Some(MoveArriveDirection)
  {
  }

  /**
   * A button press: ignored by a locked or hidden shape and for any button
   * but the first; otherwise it arms the controller under the pointer,
   * selects the shape exactly when one was hit and consumes the event then.
   */
  function PressStep(s: ArrowState, button: nat, pos: Vec2, hits: Hits): (r: (ArrowState, bool))
    ensures r.0.segment == s.segment && r.0.goDir == s.goDir && r.0.arriveDir == s.arriveDir
    ensures r.0.lock == s.lock && r.0.visible == s.visible
    ensures r.1 <==> !s.lock && s.visible && button == 1 && hits.Any()
    ensures s.lock || !s.visible || button != 1 ==> r.0 == s
    ensures !s.lock && s.visible && button == 1 ==>
              r.0.action == SelectController(s, pos, hits) && r.0.selected == r.1
  {
    if s.lock || !s.visible then (s, false)
    else if button == 1 then
      var action := SelectController(s, pos, hits);
      (s.(action := action, selected := action.Some?), action.Some?)
    else (s, false)
  }

  /**
   * A pointer motion: with exactly the primary button held, an unlocked
   * visible shape applies its armed action at the pointer position.
   */
  function MotionStep(s: ArrowState, state: nat, pos: Vec2): (r: ArrowState)
    ensures r.lock == s.lock && r.visible == s.visible
    ensures r.selected == s.selected && r.action == s.action
    ensures s.lock || !s.visible || state != BUTTON1_MASK || s.action.None? ==> r == s
  {
    if s.lock || !s.visible || state != BUTTON1_MASK then s
    else match s.action
      case None => s
      case Some(MoveGoDirection) => s.(goDir := pos.Minus(s.segment.a))
      case Some(MoveArriveDirection) => s.(arriveDir := pos.Minus(s.segment.b))
      case Some(MoveStartPoint) => s.(segment := Segment(pos, s.segment.b))
      case Some(MoveEndPoint) => s.(segment := Segment(s.segment.a, pos))
      case Some(MoveBody(fromA, fromB)) => s.(segment := Segment(pos.Minus(fromA), pos.Minus(fromB)))
  }

  /** The state a shape is in and the answer it gives after receiving one event. */
  function Handle(s: ArrowState, e: Event, hits: Hits): (r: (ArrowState, bool))
    ensures e.MotionNotify? ==> !r.1
    ensures e.ButtonRelease? ==> r == (s, false)
  {
    match e
    case MotionNotify(state, pos) => (MotionStep(s, state, pos), false)
    case ButtonPress(button, pos) => PressStep(s, button, pos, hits)
    case ButtonRelease(_, _) => (s, DefaultResponse(e))
  }

  /** Whether an active drag applies: unlocked, visible, primary button only, an action armed. */
  predicate Dragging(s: ArrowState, state: nat) {
    !s.lock && s.visible && state == BUTTON1_MASK && s.action.Some?
  }

  /**
   * Pressing on the body and then dragging moves both end points by the
   * pointer displacement: the segment keeps its vector, and dragging back
   * to the press point puts it back where it was.
   */
  lemma DragBodyTranslates(s: ArrowState, p: Vec2, hits: Hits, q: Vec2)
    requires !s.lock && s.visible
    requires PressStep(s, 1, p, hits).0.action.Some?
    requires PressStep(s, 1, p, hits).0.action.value.MoveBody?
    ensures var t := MotionStep(PressStep(s, 1, p, hits).0, BUTTON1_MASK, q).segment;
            && t.a == s.segment.a.Plus(q.Minus(p))
            && t.b == s.segment.b.Plus(q.Minus(p))
            && t.b.Minus(t.a) == s.segment.b.Minus(s.segment.a)
            && (q == p ==> t == s.segment)
  {
    var a := s.segment.a;
    var b := s.segment.b;
    var armed := SelectController(s, p, hits);
    assert PressStep(s, 1, p, hits).0.action == armed;
    assert armed == Some(MoveBody(p.Minus(a), p.Minus(b)));
  }

  /** Dragging an end point replaces exactly that end point with the pointer. */
  lemma DragEndPointReplacesOne(s: ArrowState, q: Vec2)
    requires Dragging(s, BUTTON1_MASK)
    ensures s.action == Some(MoveStartPoint) ==>
              MotionStep(s, BUTTON1_MASK, q).segment == Segment(q, s.segment.b)
    ensures s.action == Some(MoveEndPoint) ==>
              MotionStep(s, BUTTON1_MASK, q).segment == Segment(s.segment.a, q)
  {
  }

  /**
   * Dragging a direction handle puts that handle (anchor end point plus
   * direction) under the pointer and leaves the segment alone.
   */
  lemma DragDirectionFollowsPointer(s: ArrowState, q: Vec2)
    requires Dragging(s, BUTTON1_MASK)
    ensures s.action == Some(MoveGoDirection) ==>
              var t := MotionStep(s, BUTTON1_MASK, q);
              t.segment == s.segment && t.segment.a.Plus(t.goDir) == q
    ensures s.action == Some(MoveArriveDirection) ==>
              var t := MotionStep(s, BUTTON1_MASK, q);
              t.segment == s.segment && t.segment.b.Plus(t.arriveDir) == q
  {
  }

  /** A release never disarms: the action stays until the next press re-evaluates it. */
  lemma ReleaseKeepsAction(s: ArrowState, button: nat, pos: Vec2, hits: Hits)
    ensures Handle(s, ButtonRelease(button, pos), hits).0.action == s.action
  {
  }

  /**
   * Merges a non-empty list of boxes, starting from the first one: the
   * result is the least box covering all of them.
   */
  method MergeExtents(extents: seq<Rect>) returns (result: Rect)
    requires extents != []
    ensures EnclosesAll(result, extents)
    ensures forall o :: EnclosesAll(o, extents) ==> Encloses(o, result)
  {
    result := extents[0];
    var i := 0;
    while i < |extents|
      invariant 0 <= i <= |extents|
      invariant Encloses(result, extents[0])
      invariant EnclosesAll(result, extents[..i])
      invariant forall o :: Encloses(o, extents[0]) && EnclosesAll(o, extents[..i]) ==> Encloses(o, result)
    {
      result := Merged(result, extents[i]);
      i := i + 1;
    }
    assert extents[..i] == extents;
  }

  /** The segment moved by `t`. */
  function Translated(seg: Segment, t: Vec2): (r: Segment)
    ensures r.b.Minus(r.a) == seg.b.Minus(seg.a)
  {
    Segment(seg.a.Plus(t), seg.b.Plus(t))
  }

  /** Translating by t and then by -t restores the segment. */
  lemma TranslateRoundTrip(seg: Segment, t: Vec2)
    ensures Translated(Translated(seg, t), t.Negated()) == seg
  {
  }

  class LineArrow {
    var children: seq<LineArrow>
    var name: string
    var lock: bool
    var selected: bool
    var action: Option<Action>
    var visible: bool
    var color: RgbaColor
    var width: real
    var cap: LineCap
    var join: LineJoin
    var dashes: seq<real>
    var offset: real
    var segment: Segment
    var curveLike: bool
    var goDir: Vec2
    var arriveDir: Vec2

    /** The snapshot the editing engine works on. */
    function State(): ArrowState
      reads this
    {
      ArrowState(segment, goDir, arriveDir, lock, visible, selected, action)
    }

    /** A shape with the given style and segment: unlocked, visible, unselected, no action. */
    constructor (color: RgbaColor, width: real, cap: LineCap, join: LineJoin,
                 dashes: seq<real>, offset: real, curveLike: bool, segment: Segment)
      ensures children == [] && name == ""
      ensures !lock && !selected && action.None? && visible
      ensures this.color == color && this.width == width && this.cap == cap && this.join == join
      ensures this.dashes == dashes && this.offset == offset
      ensures this.segment == segment && this.curveLike == curveLike
      ensures goDir == Vec2(0.0, 0.0) && arriveDir == Vec2(0.0, 0.0)
    {
      children := [];
      name := "";
      lock := false;
      selected := false;
      action := None;
      visible := true;
      this.color := color;
      this.width := width;
      this.cap := cap;
      this.join := join;
      this.dashes := dashes;
      this.offset := offset;
      this.segment := segment;
      this.curveLike := curveLike;
      goDir := Vec2(0.0, 0.0);
      arriveDir := Vec2(0.0, 0.0);
    }

    /** A straight black line of width 10 with round caps and joins. */
    constructor FromSegment(segment: Segment)
      ensures children == [] && name == ""
      ensures !lock && !selected && action.None? && visible
      ensures color == Rgba(0.0, 0.0, 0.0, 1.0) && width == 10.0
      ensures cap == RoundCap && join == RoundJoin && dashes == [] && offset == 0.0
      ensures this.segment == segment && !curveLike
      ensures goDir == Vec2(0.0, 0.0) && arriveDir == Vec2(0.0, 0.0)
    {
      children := [];
      name := "";
      lock := false;
      selected := false;
      action := None;
      visible := true;
      color := Rgba(0.0, 0.0, 0.0, 1.0);
      width := 10.0;
      cap := RoundCap;
      join := RoundJoin;
      dashes := [];
      offset := 0.0;
      this.segment := segment;
      curveLike := false;
      goDir := Vec2(0.0, 0.0);
      arriveDir := Vec2(0.0, 0.0);
    }

    /** The pointer is on the shape exactly when some controller is hit. */
    function InDraw(pos: Vec2, hits: Hits): (hit: bool)
      reads this
      ensures hit <==> hits.Any()
    {
      SelectController(State(), pos, hits).Some?
    }

    /**
     * The extents of the shape: the merge of the boxes of the drawn parts
     * (direction handles only for a curve). It is the least box covering
     * all of them.
     */
    method DrawExtents(probes: ArrowProbes) returns (r: Option<Rect>)
      ensures r.Some?
      ensures EnclosesAll(r.value, Probed(curveLike, probes))
      ensures forall o :: EnclosesAll(o, Probed(curveLike, probes)) ==> Encloses(o, r.value)
    {
      var extents: seq<Rect> := [];
      if curveLike {
        extents := extents + [probes.goHandle];
        extents := extents + [probes.arriveHandle];
      }
      extents := extents + [probes.startHandle];
      extents := extents + [probes.endHandle];
      extents := extents + [probes.segmentStroke];
      extents := extents + [probes.headFill];
      assert extents == Probed(curveLike, probes);
      var result := MergeExtents(extents);
      r := Some(result);
    }

    /** The position of the shape is the midpoint of its segment. */
    function Position(): (p: Vec2)
      reads this
      ensures p.Minus(segment.a) == segment.b.Minus(p)
    {
      Midpoint(segment.a, segment.b)
    }

    /** Moves the shape so that its midpoint is `pos`, keeping its vector. */
    method MoveTo(pos: Vec2)
      modifies this`segment
      ensures Position() == pos
      ensures segment.b.Minus(segment.a) == old(segment.b.Minus(segment.a))
    {
      var center := Position();
      var a := segment.a.Minus(center);
      var b := segment.b.Minus(center);
      a := a.Plus(pos);
      b := b.Plus(pos);
      segment := Segment(a, b);
    }

    /** Adds `t` to both end points. */
    method TranslateBy(t: Vec2)
      modifies this`segment
      ensures segment == Translated(old(segment), t)
    {
      var a := segment.a.Plus(t);
      var b := segment.b.Plus(t);
      segment := Segment(a, b);
    }

    method SetName(name: string)
      modifies this`name
      ensures this.name == name
    {
      this.name := name;
    }

    method Lock()
      modifies this`lock
      ensures lock
    {
      if !lock {
        lock := true;
      }
    }

    method Unlock()
      modifies this`lock
      ensures !lock
    {
      if lock {
        lock := false;
      }
    }

    method ToggleLock() returns (locked: bool)
      modifies this`lock
      ensures lock == !old(lock) && locked == lock
    {
      lock := !lock;
      locked := lock;
    }

    method Show()
      modifies this`visible
      ensures visible
    {
      if !visible {
        visible := true;
      }
    }

    method Hide()
      modifies this`visible
      ensures !visible
    {
      if visible {
        visible := false;
      }
    }

    method ToggleVisible() returns (shown: bool)
      modifies this`visible
      ensures visible == !old(visible) && shown == visible
    {
      visible := !visible;
      shown := visible;
    }

    method Add(child: LineArrow)
      modifies this`children
      ensures children == old(children) + [child]
    {
      children := children + [child];
    }

    /** Removal with the corrected guard (see `Containers.RemoveChecked`). */
    method Remove(index: nat) returns (r: Removal<LineArrow>)
      modifies this`children
      ensures (r, children) == RemoveChecked(old(children), index)
    {
      if index >= |children| {
        r := Rejected;
      } else {
        r := Removed(children[index]);
        children := Without(children, index);
      }
    }

    /** Applies the armed action while exactly the primary button is held; never consumes. */
    method MotionNotify(state: nat, pos: Vec2) returns (consumed: bool)
      modifies this`segment, this`goDir, this`arriveDir
      ensures State() == MotionStep(old(State()), state, pos)
      ensures !consumed
    {
      if lock || !visible {
        return false;
      }
      if state == BUTTON1_MASK {
        match action {
          case None =>
            return false;
          case Some(MoveGoDirection) =>
            goDir := Vec2(pos.x - segment.a.x, pos.y - segment.a.y);
          case Some(MoveArriveDirection) =>
            arriveDir := Vec2(pos.x - segment.b.x, pos.y - segment.b.y);
          case Some(MoveStartPoint) =>
            segment := Segment(pos, segment.b);
          case Some(MoveEndPoint) =>
            segment := Segment(segment.a, pos);
          case Some(MoveBody(fromA, fromB)) =>
            segment := Segment(pos.Minus(fromA), pos.Minus(fromB));
        }
      }
      consumed := false;
    }

    /** Arms the controller under the pointer and selects the shape when one is hit. */
    method ButtonPress(button: nat, pos: Vec2, hits: Hits) returns (consumed: bool)
      modifies this`action, this`selected
      ensures (State(), consumed) == PressStep(old(State()), button, pos, hits)
    {
      if lock || !visible {
        return false;
      }
      if button == 1 {
        action := SelectController(State(), pos, hits);
        if action.None? {
          selected := false;
          return false;
        } else {
          selected := true;
          return true;
        }
      }
      consumed := false;
    }

    /** Not overridden: the default handler, which neither consumes nor changes anything. */
    method ButtonRelease(button: nat, pos: Vec2) returns (consumed: bool)
      ensures !consumed
    {
      consumed := DefaultResponse(Event.ButtonRelease(button, pos));
    }

    /** Delivers one event to the handler for its kind. */
    method HandleEvent(e: Event, hits: Hits) returns (consumed: bool)
      modifies this`segment, this`goDir, this`arriveDir, this`action, this`selected
      ensures (State(), consumed) == Handle(old(State()), e, hits)
    {
      match e {
        case MotionNotify(state, pos) =>
          consumed := MotionNotify(state, pos);
        case ButtonPress(button, pos) =>
          consumed := ButtonPress(button, pos, hits);
        case ButtonRelease(button, pos) =>
          consumed := ButtonRelease(button, pos);
      }
    }
  }
}
