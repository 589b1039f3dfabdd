/**
 * The older declaration of the shape capabilities, where `Name`, `Move`,
 * `Lock`, `Visible` and `Container` carry default bodies written once over
 * a `get_mut_*` accessor, and each shape only says which of its fields the
 * accessor hands out.
 *
 * A mutable reference handed out by an accessor is a `Cell`: the default
 * bodies below take the cell and change its value, and a shape holds one
 * cell per field an accessor exposes. Ownership of the fields shows as the
 * cells of one shape being distinct, so that writing through one accessor
 * leaves every other field alone.
 */
module LegacyObjects {

  import opened Geometry
  import opened Containers

  /** The place a `get_mut_*` accessor refers to. */
  class Cell<T> {
    var value: T

    constructor (v: T)
      ensures value == v
    {
      value := v;
    }
  }

  /** Default `set_name`: the stored name becomes the given one. */
  method SetName(name: Cell<string>, s: string)
    modifies name
    ensures name.value == s
  {
    name.value := s;
  }

  /**
   * Default `move_to`: adds `pos` to the current position, so despite its
   * name it shifts relative to where the shape is.
   */
  method MoveTo(position: Cell<Vec2>, pos: Vec2)
    modifies position
    ensures position.value == old(position.value).Plus(pos)
    ensures position.value.Minus(old(position.value)) == pos
  {
    var point := position.value;
    point := Vec2(point.x + pos.x, point.y);
    point := Vec2(point.x, point.y + pos.y);
    position.value := point;
  }

  /** Default `transform`: adds the vector to the position. */
  method Transform(position: Cell<Vec2>, vec: Vec2)
    modifies position
    ensures position.value == old(position.value).Plus(vec)
  {
    position.value := position.value.Plus(vec);
  }

  /** Default `lock`: afterwards the flag is set, whatever it was. */
  method Lock(lock: Cell<bool>)
    modifies lock
    ensures lock.value
  {
    if lock.value == false {
      lock.value := true;
    }
  }

  /** Default `unlock`: afterwards the flag is clear, whatever it was. */
  method Unlock(lock: Cell<bool>)
    modifies lock
    ensures !lock.value
  {
    if lock.value == true {
      lock.value := false;
    }
  }

  /** Default `toggle_lock`: flips the flag and answers the new value. */
  method ToggleLock(lock: Cell<bool>) returns (locked: bool)
    modifies lock
    ensures lock.value == !old(lock.value)
    ensures locked == lock.value
  {
    var newValue := !lock.value;
    lock.value := newValue;
    locked := newValue;
  }

  /** Default `show`: afterwards the shape is visible, whatever it was. */
  method Show(visible: Cell<bool>)
    modifies visible
    ensures visible.value
  {
    if visible.value == false {
      visible.value := true;
    }
  }

  /** Default `hide`: afterwards the shape is hidden, whatever it was. */
  method Hide(visible: Cell<bool>)
    modifies visible
    ensures !visible.value
  {
    if visible.value == true {
      visible.value := false;
    }
  }

  /** Default `toggle_visible`: flips the flag and answers the new value. */
  method ToggleVisible(visible: Cell<bool>) returns (shown: bool)
    modifies visible
    ensures visible.value == !old(visible.value)
    ensures shown == visible.value
  {
    var newValue := !visible.value;
    visible.value := newValue;
    shown := newValue;
  }

  /** Default `add`: the child goes after the existing ones. */
  method Add<T>(children: Cell<seq<T>>, child: T)
    modifies children
    ensures children.value == old(children.value) + [child]
  {
    children.value := children.value + [child];
  }

  /**
   * Default `remove`, with the corrected guard (see `Containers.RemoveChecked`
   * for the outcome and `Containers.RemoveAsWritten` for the guard as written).
   */
  method Remove<T>(children: Cell<seq<T>>, index: nat) returns (r: Removal<T>)
    modifies children
    ensures (r, children.value) == RemoveChecked(old(children.value), index)
  {
    if index >= |children.value| {
      r := Rejected;
    } else {
      r := Removed(children.value[index]);
      children.value := Without(children.value, index);
    }
  }

  /** The older line arrow: the segment is a rectangle's origin and size. */
  class LineArrow {
    const children: Cell<seq<LineArrow>>
    const name: Cell<string>
    const lock: Cell<bool>
    const visible: Cell<bool>
    var color: RgbaColor
    var width: real
    var cap: LineCap
    var join: LineJoin
    var dashes: seq<real>
    var offset: real
    /** `line.origin`: the start point, which is what the position accessor hands out. */
    const origin: Cell<Vec2>
    /** `line.size`: the vector from the start point to the end point. */
    var size: Vec2
    var arriveDir: Vec2
    var goDir: Vec2
    var curveLike: bool

    /** The two flag accessors refer to different fields. */
    ghost predicate Valid()
      reads this
    {
      lock != visible
    }

    /** A line arrow built field by field, as a struct literal does. */
    constructor (name: string, lock: bool, visible: bool, color: RgbaColor,
                 width: real, cap: LineCap, join: LineJoin, dashes: seq<real>,
                 offset: real, origin: Vec2, size: Vec2, arriveDir: Vec2,
                 goDir: Vec2, curveLike: bool)
      ensures Valid()
      ensures children.value == [] && this.name.value == name
      ensures this.lock.value == lock && this.visible.value == visible
      ensures this.color == color && this.width == width && this.cap == cap && this.join == join
      ensures this.dashes == dashes && this.offset == offset
      ensures this.origin.value == origin && this.size == size
      ensures this.arriveDir == arriveDir && this.goDir == goDir && this.curveLike == curveLike
      ensures fresh(children) && fresh(this.name) && fresh(this.lock)
      ensures fresh(this.visible) && fresh(this.origin)
    {
      children := new Cell([]);
      this.name := new Cell(name);
      this.lock := new Cell(lock);
      this.visible := new Cell(visible);
      this.color := color;
      this.width := width;
      this.cap := cap;
      this.join := join;
      this.dashes := dashes;
      this.offset := offset;
      this.origin := new Cell(origin);
      this.size := size;
      this.arriveDir := arriveDir;
      this.goDir := goDir;
      this.curveLike := curveLike;
    }

    /** The segment drawn: from the origin to the origin plus the size. */
    function Line(): (s: Segment)
      reads this, origin
      ensures s.b.Minus(s.a) == size
    {
      Segment(origin.value, origin.value.Plus(size))
    }
  }

  /**
   * `move_to` on the older line arrow: the default body shifts `line.origin`
   * and leaves `line.size` alone, so the whole segment is shifted and keeps
   * its vector, and the other flags stay as they were.
   */
  method MoveLineArrow(arrow: LineArrow, pos: Vec2)
    modifies arrow.origin
    ensures arrow.Line() == Segment(old(arrow.Line().a).Plus(pos), old(arrow.Line().b).Plus(pos))
    ensures arrow.size == old(arrow.size)
    ensures arrow.lock.value == old(arrow.lock.value) && arrow.visible.value == old(arrow.visible.value)
  {
    MoveTo(arrow.origin, pos);
  }

  /** Locking the older line arrow through its accessor leaves its visibility alone. */
  method LockLineArrow(arrow: LineArrow)
    requires arrow.Valid()
    modifies arrow.lock
    ensures arrow.lock.value
    ensures arrow.visible.value == old(arrow.visible.value)
    ensures arrow.Line() == old(arrow.Line())
  {
    Lock(arrow.lock);
  }

  /** The older layer: children and the three capability fields. */
  class Layer {
    const children: Cell<seq<LineArrow>>
    const name: Cell<string>
    const lock: Cell<bool>
    const visible: Cell<bool>

    /** The two flag accessors refer to different fields. */
    ghost predicate Valid()
      reads this
    {
      lock != visible
    }

    /** A layer built field by field, as a struct literal does. */
    constructor (children: seq<LineArrow>, name: string, lock: bool, visible: bool)
      ensures Valid()
      ensures this.children.value == children && this.name.value == name
      ensures this.lock.value == lock && this.visible.value == visible
      ensures fresh(this.children) && fresh(this.name) && fresh(this.lock) && fresh(this.visible)
    {
      this.children := new Cell(children);
      this.name := new Cell(name);
      this.lock := new Cell(lock);
      this.visible := new Cell(visible);
    }
  }

  /** Hiding the older layer through its accessor leaves its lock and children alone. */
  method HideLayer(layer: Layer)
    requires layer.Valid()
    modifies layer.visible
    ensures !layer.visible.value
    ensures layer.lock.value == old(layer.lock.value)
    ensures layer.children.value == old(layer.children.value)
  {
    Hide(layer.visible);
  }
}
