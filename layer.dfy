/**
 * A layer: an ordered list of shapes, drawn first to last, with its own
 * name and lock/visibility flags. Events are offered to the shapes from
 * index 0 upward and stop at the first shape that consumes them.
 */
module Layers {

  import opened Wrappers
  import opened Geometry
  import opened Priority
  import opened Containers
  import opened Capabilities
  import opened LineArrows

  /** The editing snapshots of a list of shapes, in order. */
  function StatesOf(shapes: seq<LineArrow>): (r: seq<ArrowState>)
    reads shapes
    ensures |r| == |shapes|
    ensures forall j :: 0 <= j < |shapes| ==> r[j] == shapes[j].State()
  {
    seq(|shapes|, j requires 0 <= j < |shapes| reads shapes => shapes[j].State())
  }

  /** Whether each shape, in its own state, consumes the event. */
  function Answers(states: seq<ArrowState>, e: Event, hits: seq<Hits>): (a: seq<bool>)
    requires |hits| == |states|
    ensures |a| == |states|
    ensures forall j :: 0 <= j < |a| ==> a[j] == Handle(states[j], e, hits[j]).1
  {
    seq(|states|, j requires 0 <= j < |states| => Handle(states[j], e, hits[j]).1)
  }

  /**
   * Front-to-back dispatch over a layer's shapes: every shape up to and
   * including the first consumer handles the event; the shapes after it
   * are not offered the event. The layer consumes the event exactly when
   * some shape does.
   */
  function ShapesOffer(states: seq<ArrowState>, e: Event, hits: seq<Hits>): (r: (seq<ArrowState>, bool))
    requires |hits| == |states|
    ensures |r.0| == |states|
  {
    var k := FirstTrue(Answers(states, e, hits));
    (seq(|states|, j requires 0 <= j < |states| =>
       if j <= k then Handle(states[j], e, hits[j]).0 else states[j]),
     k < |states|)
  }

  /**
   * A layer consumes an event exactly when one of its shapes does; when
   * none does, every shape has handled it.
   */
  lemma {:induction false} LayerConsumesIffSomeShape(states: seq<ArrowState>, e: Event, hits: seq<Hits>)
    requires |hits| == |states|
    ensures ShapesOffer(states, e, hits).1 <==> exists j :: 0 <= j < |states| && Handle(states[j], e, hits[j]).1
    ensures !ShapesOffer(states, e, hits).1 ==>
              forall j :: 0 <= j < |states| ==> ShapesOffer(states, e, hits).0[j] == Handle(states[j], e, hits[j]).0
  {
    var a := Answers(states, e, hits);
    var k := FirstTrue(a);
    if k < |states| {
      assert a[k];
    }
  }

  /**
   * When a shape consumes the event, it is the first to do so: every shape
   * before it declined, and no shape after it was touched.
   */
  lemma {:induction false} OfferStopsAtFirstConsumer(states: seq<ArrowState>, e: Event, hits: seq<Hits>, k: nat)
    requires |hits| == |states| && k < |states|
    requires Handle(states[k], e, hits[k]).1
    requires forall j :: 0 <= j < k ==> !Handle(states[j], e, hits[j]).1
    ensures ShapesOffer(states, e, hits).1
    ensures forall j :: 0 <= j <= k ==> ShapesOffer(states, e, hits).0[j] == Handle(states[j], e, hits[j]).0
    ensures forall j :: k < j < |states| ==> ShapesOffer(states, e, hits).0[j] == states[j]
  {
    FirstTrueUnique(Answers(states, e, hits), k);
  }

  /** No shape consumes a release, so a layer passes it through unchanged. */
  lemma {:induction false} LayerPassesRelease(states: seq<ArrowState>, e: Event, hits: seq<Hits>)
    requires |hits| == |states| && e.ButtonRelease?
    ensures ShapesOffer(states, e, hits) == (states, false)
  {
    var a := Answers(states, e, hits);
    FirstTrueUnique(a, |states|);
    assert ShapesOffer(states, e, hits).0 == states;
  }

  /**
   * No shape consumes a motion, so every shape of the layer receives it:
   * all shapes with an armed action follow the pointer together.
   */
  lemma {:induction false} MotionReachesEveryShape(states: seq<ArrowState>, e: Event, hits: seq<Hits>)
    requires |hits| == |states| && e.MotionNotify?
    ensures !ShapesOffer(states, e, hits).1
    ensures forall j :: 0 <= j < |states| ==>
              ShapesOffer(states, e, hits).0[j] == MotionStep(states[j], e.state, e.pos)
  {
    FirstTrueUnique(Answers(states, e, hits), |states|);
  }

  /**
   * A primary click disarms and unselects every unlocked visible shape
   * before the one that takes it (all of them when none does).
   */
  lemma {:induction false} PressUnselectsMissedShapes(states: seq<ArrowState>, e: Event, hits: seq<Hits>)
    requires |hits| == |states| && e.ButtonPress? && e.button == 1
    ensures var k := FirstTrue(Answers(states, e, hits));
            forall j :: 0 <= j < |states| && j < k && !states[j].lock && states[j].visible ==>
              !ShapesOffer(states, e, hits).0[j].selected && ShapesOffer(states, e, hits).0[j].action.None?
  {
    var k := FirstTrue(Answers(states, e, hits));
    forall j | 0 <= j < |states| && j < k && !states[j].lock && states[j].visible
      ensures !ShapesOffer(states, e, hits).0[j].selected && ShapesOffer(states, e, hits).0[j].action.None?
    {
      assert !Answers(states, e, hits)[j];
    }
  }

  /**
   * The outcome of a dispatch that stopped at shape k (or ran past the
   * last one, k = |states|) is the one `ShapesOffer` describes.
   */
  lemma OfferOutcome(states: seq<ArrowState>, e: Event, hits: seq<Hits>, after: seq<ArrowState>, k: nat)
    requires |hits| == |states| == |after| && k <= |states|
    requires forall j :: 0 <= j < k ==> !Handle(states[j], e, hits[j]).1
    requires k < |states| ==> Handle(states[k], e, hits[k]).1
    requires forall j :: 0 <= j < |states| && j <= k ==> after[j] == Handle(states[j], e, hits[j]).0
    requires forall j :: k < j < |states| ==> after[j] == states[j]
    ensures (after, k < |states|) == ShapesOffer(states, e, hits)
  {
    FirstTrueUnique(Answers(states, e, hits), k);
    var r := ShapesOffer(states, e, hits);
    assert forall j :: 0 <= j < |states| ==> r.0[j] == after[j];
    assert r.0 == after;
  }

  class Layer {
    var children: seq<LineArrow>
    var name: string
    var lock: bool
    var visible: bool

    /** Each shape is owned by the layer once. */
    ghost predicate Valid()
      reads this
    {
      Distinct(children)
    }

    /** The shapes an event dispatch may change. */
    ghost function Shapes(): set<LineArrow>
      reads this
    {
      set c | c in children
    }

    /** A new layer holding one curved sample arrow. */
    constructor ()
      ensures Valid() && |children| == 1 && fresh(children[0])
      ensures name == "Unnamed Layer" && !lock && visible
      ensures children[0].curveLike && !children[0].lock && children[0].visible
      ensures !children[0].selected && children[0].action.None?
      ensures children[0].children == [] && children[0].name == ""
      ensures children[0].cap == RoundCap && children[0].join == RoundJoin
      ensures children[0].dashes == [] && children[0].offset == 0.0
      ensures children[0].color == Rgba(0.5, 0.5, 1.0, 1.0) && children[0].width == 10.0
      ensures children[0].segment == Segment(Vec2(-50.0, -50.0), Vec2(50.0, 50.0))
      ensures children[0].goDir == Vec2(10.0, 80.0) && children[0].arriveDir == Vec2(-10.0, -80.0)
    {
      var arrow := new LineArrow(Rgba(0.5, 0.5, 1.0, 1.0), 10.0, RoundCap, RoundJoin, [], 0.0, true,
                                 Segment(Vec2(-50.0, -50.0), Vec2(50.0, 50.0)));
      arrow.goDir := Vec2(10.0, 80.0);
      arrow.arriveDir := Vec2(-10.0, -80.0);
      children := [arrow];
      name := "Unnamed Layer";
      lock := false;
      visible := true;
    }

    /** An empty, unlocked, visible layer. */
    constructor Default()
      ensures Valid() && children == []
      ensures name == "Unnamed Layer" && !lock && visible
    {
      children := [];
      name := "Unnamed Layer";
      lock := false;
      visible := true;
    }

    /** Whether the pointer hits the layer, given each shape's hit tests. */
    predicate Hit(hits: seq<Hits>)
      reads this
    {
      visible && exists j :: 0 <= j < |hits| && hits[j].Any()
    }

    /** A hidden layer is never hit; otherwise it is hit when some shape is. */
    method InDraw(pos: Vec2, hits: seq<Hits>) returns (hit: bool)
      requires |hits| == |children|
      ensures hit <==> visible && exists j :: 0 <= j < |hits| && hits[j].Any()
    {
      if !visible {
        return false;
      }
      var i := 0;
      while i < |children|
        invariant 0 <= i <= |children|
        invariant forall j :: 0 <= j < i ==> !hits[j].Any()
      {
        if children[i].InDraw(pos, hits[i]) {
          return true;
        }
        i := i + 1;
      }
      return false;
    }

    /**
     * The extents of the layer, given each shape's extents: none without
     * shapes or when no shape yields a box; otherwise the least box covering
     * every box the shapes yield.
     */
    function DrawExtents(childBoxes: seq<Option<Rect>>): (r: Option<Rect>)
      reads this
      requires |childBoxes| == |children|
      ensures r.None? <==> forall j :: 0 <= j < |childBoxes| ==> childBoxes[j].None?
      ensures r.Some? ==> forall j :: 0 <= j < |childBoxes| && childBoxes[j].Some? ==>
                            Encloses(r.value, childBoxes[j].value)
      ensures r.Some? ==> forall o :: EnclosesAll(o, Present(childBoxes)) ==> Encloses(o, r.value)
    {
      PresentEmpty(childBoxes);
      if |children| == 0 then None
      else
        var present := Present(childBoxes);
        if present == [] then None else Some(Cover(present))
    }

    method SetName(name: string)
      modifies this`name
      ensures this.name == name
    {
      this.name := name;
    }

    method Lock()
      modifies this`lock
      ensures lock
    {
      if !lock {
        lock := true;
      }
    }

    method Unlock()
      modifies this`lock
      ensures !lock
    {
      if lock {
        lock := false;
      }
    }

    method ToggleLock() returns (locked: bool)
      modifies this`lock
      ensures lock == !old(lock) && locked == lock
    {
      lock := !lock;
      locked := lock;
    }

    method Show()
      modifies this`visible
      ensures visible
    {
      if !visible {
        visible := true;
      }
    }

    method Hide()
      modifies this`visible
      ensures !visible
    {
      if visible {
        visible := false;
      }
    }

    method ToggleVisible() returns (shown: bool)
      modifies this`visible
      ensures visible == !old(visible) && shown == visible
    {
      visible := !visible;
      shown := visible;
    }

    /** Appends a shape the layer does not hold yet. */
    method Add(child: LineArrow)
      requires Valid() && child !in children
      modifies this`children
      ensures Valid()
      ensures children == old(children) + [child]
    {
      children := children + [child];
    }

    /** Removal with the corrected guard (see `Containers.RemoveChecked`). */
    method Remove(index: nat) returns (r: Removal<LineArrow>)
      requires Valid()
      modifies this`children
      ensures Valid()
      ensures (r, children) == RemoveChecked(old(children), index)
    {
      if index >= |children| {
        r := Rejected;
      } else {
        r := Removed(children[index]);
        children := Without(children, index);
      }
    }

    /**
     * Offers an event to the shapes from index 0 upward, stopping at the
     * first that consumes it; the layer's own flags are not consulted.
     */
    method Offer(e: Event, hits: seq<Hits>) returns (consumed: bool)
      requires Valid() && |hits| == |children|
      modifies Shapes()`segment, Shapes()`goDir, Shapes()`arriveDir, Shapes()`action, Shapes()`selected
      ensures (StatesOf(children), consumed) == ShapesOffer(old(StatesOf(children)), e, hits)
    {
      ghost var before := StatesOf(children);
      var i := 0;
      while i < |children|
        invariant 0 <= i <= |children|
        invariant forall j :: 0 <= j < i ==> !Handle(before[j], e, hits[j]).1
        invariant forall j :: 0 <= j < i ==> children[j].State() == Handle(before[j], e, hits[j]).0
        invariant forall j :: i <= j < |children| ==> children[j].State() == before[j]
      {
        label Offered:
        consumed := children[i].HandleEvent(e, hits[i]);
        assert forall j :: 0 <= j < |children| && j != i ==>
                 children[j].State() == old@Offered(children[j].State());
        if consumed {
          OfferOutcome(before, e, hits, StatesOf(children), i);
          return;
        }
        i := i + 1;
      }
      consumed := false;
      OfferOutcome(before, e, hits, StatesOf(children), |children|);
    }

    /** Clears the selection of every shape and changes nothing else. */
    method UnselectAllShapes()
      requires Valid()
      modifies Shapes()`selected
      ensures forall j :: 0 <= j < |children| ==>
                children[j].State() == old(children[j].State()).(selected := false)
    {
      var i := 0;
      while i < |children|
        invariant 0 <= i <= |children|
        invariant forall j :: 0 <= j < i ==> children[j].State() == old(children[j].State()).(selected := false)
        invariant forall j :: i <= j < |children| ==> children[j].State() == old(children[j].State())
      {
        children[i].selected := false;
        i := i + 1;
      }
    }

    /**
     * Deletes the shapes still being placed (`creating[j]` for shape j),
     * keeping the others in order.
     */
    method RemoveShapesInCreatingMode(creating: seq<bool>)
      requires Valid() && |creating| == |children|
      modifies this`children
      ensures Valid()
      ensures children == Finished(old(children), creating)
    {
      var shapes := children;
      var kept: seq<LineArrow> := [];
      var i := 0;
      while i < |shapes|
        invariant 0 <= i <= |shapes|
        invariant kept == Finished(shapes[..i], creating[..i])
      {
        assert shapes[..i + 1] == shapes[..i] + [shapes[i]];
        assert creating[..i + 1] == creating[..i] + [creating[i]];
        FinishedAppend(shapes[..i], creating[..i], shapes[i], creating[i]);
        if !creating[i] {
          kept := kept + [shapes[i]];
        }
        i := i + 1;
      }
      assert shapes[..i] == shapes && creating[..i] == creating;
      FinishedKeepsOwnership(shapes, creating);
      children := kept;
    }
  }

  /** The shapes not flagged as being created, in their original order. */
  function Finished(shapes: seq<LineArrow>, creating: seq<bool>): (r: seq<LineArrow>)
    requires |creating| == |shapes|
    ensures |r| <= |shapes|
    ensures forall x :: x in r ==> x in shapes
  {
    if shapes == [] then []
    else
      var rest := Finished(shapes[1..], creating[1..]);
      if creating[0] then rest else [shapes[0]] + rest
  }

  /**
   * Exactly the finished shapes are kept: every shape not being created is
   * kept, and every kept shape is one that was not being created.
   */
  lemma {:induction false} FinishedMembers(shapes: seq<LineArrow>, creating: seq<bool>)
    requires |creating| == |shapes|
    ensures forall j :: 0 <= j < |shapes| && !creating[j] ==> shapes[j] in Finished(shapes, creating)
    ensures forall i :: 0 <= i < |Finished(shapes, creating)| ==>
              exists j :: 0 <= j < |shapes| && shapes[j] == Finished(shapes, creating)[i] && !creating[j]
  {
    if shapes != [] {
      var tail, flags := shapes[1..], creating[1..];
      FinishedMembers(tail, flags);
      var rest := Finished(tail, flags);
      var r := Finished(shapes, creating);
      forall j | 0 <= j < |shapes| && !creating[j] ensures shapes[j] in r {
        if j > 0 {
          assert shapes[j] == tail[j - 1] && !flags[j - 1];
        }
      }
      forall i | 0 <= i < |r|
        ensures exists j :: 0 <= j < |shapes| && shapes[j] == r[i] && !creating[j]
      {
        if !creating[0] && i == 0 {
          assert shapes[0] == r[0];
        } else {
          var i' := if creating[0] then i else i - 1;
          assert r[i] == rest[i'];
          var j :| 0 <= j < |tail| && tail[j] == rest[i'] && !flags[j];
          assert shapes[j + 1] == r[i] && !creating[j + 1];
        }
      }
    } else {
      assert Finished(shapes, creating) == [];
    }
  }

  /** Filtering a list extended by one shape extends the filtered list by it, if kept. */
  lemma {:induction false} FinishedAppend(shapes: seq<LineArrow>, creating: seq<bool>, c: LineArrow, b: bool)
    requires |creating| == |shapes|
    ensures Finished(shapes + [c], creating + [b]) == Finished(shapes, creating) + (if b then [] else [c])
    decreases |shapes|
  {
    if shapes == [] {
      assert shapes + [c] == [c] && creating + [b] == [b];
    } else {
      assert (shapes + [c])[1..] == shapes[1..] + [c];
      assert (creating + [b])[1..] == creating[1..] + [b];
      FinishedAppend(shapes[1..], creating[1..], c, b);
    }
  }

  /** Filtering a list of distinct shapes leaves them distinct. */
  lemma {:induction false} FinishedKeepsOwnership(shapes: seq<LineArrow>, creating: seq<bool>)
    requires |creating| == |shapes| && Distinct(shapes)
    ensures Distinct(Finished(shapes, creating))
    decreases |shapes|
  {
    if shapes != [] {
      var tail := shapes[1..];
      assert Distinct(tail) by {
        forall i, j | 0 <= i < j < |tail| ensures tail[i] != tail[j] {
          assert tail[i] == shapes[i + 1] && tail[j] == shapes[j + 1];
        }
      }
      FinishedKeepsOwnership(tail, creating[1..]);
      var rest := Finished(tail, creating[1..]);
      if !creating[0] {
        forall i | 0 <= i < |rest| ensures rest[i] != shapes[0] {
          assert rest[i] in tail;
          var j :| 0 <= j < |tail| && tail[j] == rest[i];
          assert rest[i] == shapes[j + 1];
        }
        DistinctCons(shapes[0], rest);
      }
    }
  }
}
