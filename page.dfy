/**
 * A page: a sized sheet holding an ordered list of layers (drawn bottom to
 * top), the index of the active layer, background, border and grid
 * colours, a name, and the viewport (translation and zoom).
 *
 * Pointer events are offered to the layers from the topmost (last) down to
 * the bottommost and stop at the first layer that consumes them. The
 * pointer position is taken in user space: the device-to-user conversion
 * through the viewport is not part of this model.
 */
module Pages {

  import opened Wrappers
  import opened Geometry
  import opened Priority
  import opened Containers
  import opened Capabilities
  import opened LineArrows
  import opened Layers
  import opened Types

  /** Every shape held by some layer of the list. */
  ghost function ShapesOf(layers: seq<Layer>): set<LineArrow>
    reads layers
  {
    set l, c | l in layers && c in l.children :: c
  }

  /** The editing snapshots of every layer's shapes, layer by layer. */
  function StatesOfLayers(layers: seq<Layer>): (r: seq<seq<ArrowState>>)
    reads layers, ShapesOf(layers)
    ensures |r| == |layers|
    ensures forall j :: 0 <= j < |layers| ==> r[j] == StatesOf(layers[j].children)
  {
    seq(|layers|, j requires 0 <= j < |layers| reads layers, ShapesOf(layers) =>
      assert forall c :: c in layers[j].children ==> c in ShapesOf(layers);
      StatesOf(layers[j].children))
  }

  /** Layers none of whose objects or shapes were written keep their snapshots. */
  twostate lemma StatesOfLayersKept(layers: seq<Layer>)
    requires forall l :: l in layers ==> unchanged(l)
    requires forall s :: s in old(ShapesOf(layers)) ==> unchanged(s)
    ensures StatesOfLayers(layers) == old(StatesOfLayers(layers))
  {
    forall j | 0 <= j < |layers|
      ensures StatesOf(layers[j].children) == old(StatesOf(layers[j].children))
    {
      var shapes := layers[j].children;
      assert layers[j] in layers;
      assert shapes == old(layers[j].children);
      forall k | 0 <= k < |shapes| ensures shapes[k].State() == old(shapes[k].State()) {
        assert shapes[k] in old(layers[j].children);
        assert shapes[k] in old(ShapesOf(layers));
      }
    }
  }

  /**
   * Ownership of a page's layers: each layer is held once, is itself well
   * formed, and no shape belongs to two layers.
   */
  ghost predicate Owned(layers: seq<Layer>)
    reads layers
  {
    && Distinct(layers)
    && (forall j :: 0 <= j < |layers| ==> layers[j].Valid())
    && (forall i, j :: 0 <= i < j < |layers| ==> ShapesApart(layers, i, j))
  }

  /** Layers i and j of the list share no shape. */
  ghost predicate ShapesApart(layers: seq<Layer>, i: nat, j: nat)
    requires i < |layers| && j < |layers|
    reads layers
  {
    layers[i].Shapes() !! layers[j].Shapes()
  }

  /** In an owned list, layer i shares no shape with any other layer. */
  lemma ApartFromOthers(layers: seq<Layer>, i: nat)
    requires Owned(layers) && i < |layers|
    ensures forall j :: 0 <= j < |layers| && j != i ==> layers[i].Shapes() !! layers[j].Shapes()
  {
    forall j | 0 <= j < |layers| && j != i
      ensures layers[i].Shapes() !! layers[j].Shapes()
    {
      if j < i {
        assert ShapesApart(layers, j, i);
      } else {
        assert ShapesApart(layers, i, j);
      }
    }
  }

  /** The hit-test inputs have one entry per shape of every layer. */
  ghost predicate Matches<T>(layers: seq<Layer>, perShape: seq<seq<T>>)
    reads layers
  {
    |perShape| == |layers| && forall j :: 0 <= j < |layers| ==> |perShape[j]| == |layers[j].children|
  }

  /** Per-shape inputs in the shape of the given snapshots. */
  predicate Shaped<S, T>(states: seq<seq<S>>, perShape: seq<seq<T>>) {
    |perShape| == |states| && forall j :: 0 <= j < |states| ==> |perShape[j]| == |states[j]|
  }

  /** Whether each layer, in its own state, consumes the event. */
  function LayerAnswers(states: seq<seq<ArrowState>>, e: Event, hits: seq<seq<Hits>>): (a: seq<bool>)
    requires Shaped(states, hits)
    ensures |a| == |states|
    ensures forall j :: 0 <= j < |a| ==> a[j] == ShapesOffer(states[j], e, hits[j]).1
  {
    seq(|states|, j requires 0 <= j < |states| => ShapesOffer(states[j], e, hits[j]).1)
  }

  /**
   * Topmost-first dispatch over a page's layers: every layer from the top
   * down to and including the first consumer handles the event, the layers
   * below it are not offered the event, and the page consumes the event
   * exactly when some layer does.
   */
  function LayersOffer(states: seq<seq<ArrowState>>, e: Event, hits: seq<seq<Hits>>): (r: (seq<seq<ArrowState>>, bool))
    requires Shaped(states, hits)
    ensures |r.0| == |states|
  {
    var k := LastTrue(LayerAnswers(states, e, hits));
    (seq(|states|, j requires 0 <= j < |states| =>
       if j >= k then ShapesOffer(states[j], e, hits[j]).0 else states[j]),
     k >= 0)
  }

  /** A page consumes an event exactly when one of its layers does. */
  lemma {:induction false} PageConsumesIffSomeLayer(states: seq<seq<ArrowState>>, e: Event, hits: seq<seq<Hits>>)
    requires Shaped(states, hits)
    ensures LayersOffer(states, e, hits).1 <==> exists j :: 0 <= j < |states| && ShapesOffer(states[j], e, hits[j]).1
  {
    var a := LayerAnswers(states, e, hits);
    var k := LastTrue(a);
    if k >= 0 {
      assert a[k];
    }
  }

  /**
   * The outcome of a dispatch that stopped at layer k (or ran below the
   * first one, k = -1) is the one `LayersOffer` describes.
   */
  lemma LayersOfferOutcome(states: seq<seq<ArrowState>>, e: Event, hits: seq<seq<Hits>>,
                           after: seq<seq<ArrowState>>, k: int)
    requires Shaped(states, hits) && |after| == |states| && -1 <= k < |states|
    requires forall j :: k < j < |states| ==> !ShapesOffer(states[j], e, hits[j]).1
    requires k >= 0 ==> ShapesOffer(states[k], e, hits[k]).1
    requires forall j :: 0 <= j < |states| && j >= k ==> after[j] == ShapesOffer(states[j], e, hits[j]).0
    requires forall j :: 0 <= j < |states| && j < k ==> after[j] == states[j]
    ensures (after, k >= 0) == LayersOffer(states, e, hits)
  {
    LastTrueUnique(LayerAnswers(states, e, hits), k);
    var r := LayersOffer(states, e, hits);
    assert forall j :: 0 <= j < |states| ==> r.0[j] == after[j];
    assert r.0 == after;
  }

  /**
   * When a layer consumes the event, it is the topmost to do so: every
   * layer above it declined, and no layer below it was touched.
   */
  lemma {:induction false} TopmostConsumerWins(states: seq<seq<ArrowState>>, e: Event, hits: seq<seq<Hits>>, k: nat)
    requires Shaped(states, hits) && k < |states|
    requires ShapesOffer(states[k], e, hits[k]).1
    requires forall j :: k < j < |states| ==> !ShapesOffer(states[j], e, hits[j]).1
    ensures LayersOffer(states, e, hits).1
    ensures forall j :: k <= j < |states| ==> LayersOffer(states, e, hits).0[j] == ShapesOffer(states[j], e, hits[j]).0
    ensures forall j :: 0 <= j < k ==> LayersOffer(states, e, hits).0[j] == states[j]
  {
    LastTrueUnique(LayerAnswers(states, e, hits), k);
  }

  /** No layer consumes a release, so a page passes it through unchanged. */
  lemma {:induction false} PagePassesRelease(states: seq<seq<ArrowState>>, e: Event, hits: seq<seq<Hits>>)
    requires Shaped(states, hits) && e.ButtonRelease?
    ensures LayersOffer(states, e, hits) == (states, false)
  {
    forall j | 0 <= j < |states| ensures ShapesOffer(states[j], e, hits[j]) == (states[j], false) {
      LayerPassesRelease(states[j], e, hits[j]);
    }
    LastTrueUnique(LayerAnswers(states, e, hits), -1);
    assert LayersOffer(states, e, hits).0 == states;
  }

  class Page {
    var size: Size
    var layers: seq<Layer>
    var activeLayerIndex: nat
    var color: Option<RgbColor>
    var border: Option<RgbColor>
    var grid: Option<RgbColor>
    var name: string
    var translate: Vec2
    var zoomLevel: real

    ghost predicate Valid()
      reads this, layers
    {
      Owned(layers)
    }

    /**
     * An 800 x 600 white page with a grey border, no grid, no translation,
     * zoom 1 and one new layer, which is active.
     */
    constructor ()
      ensures Valid() && fresh(size) && fresh(ShapesOf(layers))
      ensures size.width == 800 && size.height == 600
      ensures |layers| == 1 && fresh(layers[0]) && |layers[0].children| == 1
      ensures activeLayerIndex == 0
      ensures color == Some(RgbColor(1.0, 1.0, 1.0)) && border == Some(RgbColor(0.47, 0.47, 0.47))
      ensures grid.None? && name == "Unnamed Page"
      ensures translate == Vec2(0.0, 0.0) && zoomLevel == 1.0
    {
      size := new Size(800, 600);
      var layer := new Layer();
      layers := [layer];
      activeLayerIndex := 0;
      color := Some(RgbColor(1.0, 1.0, 1.0));
      border := Some(RgbColor(0.47, 0.47, 0.47));
      grid := None;
      name := "Unnamed Page";
      translate := Vec2(0.0, 0.0);
      zoomLevel := 1.0;
      new;
      assert ShapesOf(layers) == layer.Shapes();
    }

    method SetSize(size: Size)
      modifies this`size
      ensures this.size == size
    {
      this.size := size;
    }

    /** Replaces the layer list by one the page will own. */
    method SetLayers(layers: seq<Layer>)
      requires Owned(layers)
      modifies this`layers
      ensures this.layers == layers && Valid()
    {
      this.layers := layers;
    }

    /**
     * The active layer. The index is trusted and used to index the list,
     * which panics when it is out of range: that outcome is `None`.
     */
    function ActiveLayer(): (l: Option<Layer>)
      reads this
      ensures l.None? <==> activeLayerIndex >= |layers|
      ensures l.Some? ==> l.value in layers && l.value == layers[activeLayerIndex]
    {
      if activeLayerIndex < |layers| then Some(layers[activeLayerIndex]) else None
    }

    /** Sets the active layer index without any bounds check. */
    method SetActiveLayerIndex(index: nat)
      modifies this`activeLayerIndex
      ensures activeLayerIndex == index
    {
      activeLayerIndex := index;
    }

    method SetColor(color: Option<RgbColor>)
      modifies this`color
      ensures this.color == color
    {
      this.color := color;
    }

    method SetGrid(grid: Option<RgbColor>)
      modifies this`grid
      ensures this.grid == grid
    {
      this.grid := grid;
    }

    method SetName(name: string)
      modifies this`name
      ensures this.name == name
    {
      this.name := name;
    }

    method SetTranslate(translate: Vec2)
      modifies this`translate
      ensures this.translate == translate
    {
      this.translate := translate;
    }

    method SetZoomLevel(zoomLevel: real)
      modifies this`zoomLevel
      ensures this.zoomLevel == zoomLevel
    {
      this.zoomLevel := zoomLevel;
    }

    /** The page rectangle: from the origin, as wide and as high as the page. */
    function PageBound(): (r: Rect)
      reads this, size
      ensures r.mins == Vec2(0.0, 0.0)
      ensures r.maxs.Minus(r.mins) == Vec2(size.width as real, size.height as real)
    {
      Rect(Vec2(0.0, 0.0), Vec2(size.width as real, size.height as real))
    }

    /**
     * The extents of the page, given the fill and stroke boxes of the page
     * rectangle and each layer's extents: always a box, covering the page
     * rectangle and every layer box, and the least such box.
     */
    function DrawExtents(fill: Rect, stroke: Rect, layerBoxes: seq<Option<Rect>>): (r: Option<Rect>)
      reads this
      requires |layerBoxes| == |layers|
      ensures r.Some?
      ensures Encloses(r.value, fill) && Encloses(r.value, stroke)
      ensures forall j :: 0 <= j < |layerBoxes| && layerBoxes[j].Some? ==>
                Encloses(r.value, layerBoxes[j].value)
      ensures (forall j :: 0 <= j < |layerBoxes| ==> layerBoxes[j].None?) ==> r.value == Merged(fill, stroke)
      ensures forall o :: Encloses(o, fill) && Encloses(o, stroke) && EnclosesAll(o, Present(layerBoxes)) ==>
                Encloses(o, r.value)
    {
      var pageBound := Merged(fill, stroke);
      PresentEmpty(layerBoxes);
      if |layers| == 0 then Some(pageBound)
      else
        var present := Present(layerBoxes);
        if present == [] then Some(pageBound)
        else Some(Merged(Cover(present), pageBound))
    }

    /** The page is hit when some layer is. */
    method InDraw(pos: Vec2, hits: seq<seq<Hits>>) returns (hit: bool)
      requires Matches(layers, hits)
      ensures hit <==> exists j :: 0 <= j < |layers| && layers[j].Hit(hits[j])
    {
      var i := 0;
      while i < |layers|
        invariant 0 <= i <= |layers|
        invariant forall j :: 0 <= j < i ==> !layers[j].Hit(hits[j])
      {
        hit := layers[i].InDraw(pos, hits[i]);
        if hit {
          return;
        }
        i := i + 1;
      }
      hit := false;
    }

    /** Offers a pointer event to the layers from the topmost down, stopping at the first consumer. */
    method Offer(e: Event, hits: seq<seq<Hits>>) returns (consumed: bool)
      requires Valid() && Matches(layers, hits)
      modifies ShapesOf(layers)`segment, ShapesOf(layers)`goDir, ShapesOf(layers)`arriveDir, ShapesOf(layers)`action, ShapesOf(layers)`selected
      ensures (StatesOfLayers(layers), consumed) == LayersOffer(old(StatesOfLayers(layers)), e, hits)
    {
      ghost var before := StatesOfLayers(layers);
      var i := |layers|;
      while i > 0
        invariant 0 <= i <= |layers|
        invariant layers == old(layers)
        invariant Valid() && Matches(layers, hits)
        invariant forall j :: i <= j < |layers| ==>
                    (StatesOf(layers[j].children), false) == ShapesOffer(before[j], e, hits[j])
        invariant forall j :: 0 <= j < i ==> StatesOf(layers[j].children) == before[j]
      {
        i := i - 1;
        consumed := OfferLayer(i, e, hits[i]);
        if consumed {
          LayersOfferOutcome(before, e, hits, StatesOfLayers(layers), i);
          return;
        }
      }
      consumed := false;
      LayersOfferOutcome(before, e, hits, StatesOfLayers(layers), -1);
    }

    /** Offers the event to layer i alone; the other layers' shapes do not change. */
    method OfferLayer(i: nat, e: Event, hits: seq<Hits>) returns (consumed: bool)
      requires Valid() && i < |layers| && |hits| == |layers[i].children|
      modifies layers[i].Shapes()`segment, layers[i].Shapes()`goDir, layers[i].Shapes()`arriveDir, layers[i].Shapes()`action, layers[i].Shapes()`selected
      ensures Valid()
      ensures (StatesOf(layers[i].children), consumed) == ShapesOffer(old(StatesOf(layers[i].children)), e, hits)
      ensures forall j :: 0 <= j < |layers| && j != i ==>
                StatesOf(layers[j].children) == old(StatesOf(layers[j].children))
    {
      ApartFromOthers(layers, i);
      consumed := layers[i].Offer(e, hits);
    }

    /**
     * Offers a key event to the layers from the topmost down, given whether
     * each layer consumes it; answers the index of the layer that took it
     * (-1 for none).
     */
    method OfferKey(answers: seq<bool>) returns (consumed: bool, taker: int)
      requires |answers| == |layers|
      ensures taker == LastTrue(answers)
      ensures consumed <==> exists j :: 0 <= j < |answers| && answers[j]
    {
      var i := |layers|;
      while i > 0
        invariant 0 <= i <= |layers|
        invariant forall j :: i <= j < |layers| ==> !answers[j]
      {
        i := i - 1;
        if answers[i] {
          LastTrueUnique(answers, i);
          return true, i;
        }
      }
      LastTrueUnique(answers, -1);
      return false, -1;
    }

    /** Clears the selection of every shape on every layer. */
    method UnselectAllShapes()
      requires Valid()
      modifies ShapesOf(layers)`selected
      ensures forall j, k :: 0 <= j < |layers| && 0 <= k < |layers[j].children| ==>
                layers[j].children[k].State() == old(layers[j].children[k].State()).(selected := false)
    {
      var i := 0;
      while i < |layers|
        invariant 0 <= i <= |layers|
        invariant forall j, k :: 0 <= j < i && 0 <= k < |layers[j].children| ==>
                    layers[j].children[k].State() == old(layers[j].children[k].State()).(selected := false)
        invariant forall j, k :: i <= j < |layers| && 0 <= k < |layers[j].children| ==>
                    layers[j].children[k].State() == old(layers[j].children[k].State())
      {
        label Cleared:
        ApartFromOthers(layers, i);
        layers[i].UnselectAllShapes();
        assert forall j, k :: 0 <= j < |layers| && j != i && 0 <= k < |layers[j].children| ==>
                 layers[j].children[k].State() == old@Cleared(layers[j].children[k].State());
        i := i + 1;
      }
    }

    /** Deletes the shapes being placed from layer i alone, keeping the page well formed. */
    method RemoveShapesOfLayer(i: nat, creating: seq<bool>)
      requires Valid() && i < |layers| && |creating| == |layers[i].children|
      modifies {layers[i]}`children
      ensures Valid()
      ensures layers[i].children == Finished(old(layers[i].children), creating)
      ensures forall j :: 0 <= j < |layers| && j != i ==> layers[j].children == old(layers[j].children)
    {
      layers[i].RemoveShapesInCreatingMode(creating);
      assert layers[i].Shapes() <= old(layers[i].Shapes());
      forall a, b | 0 <= a < b < |layers| ensures ShapesApart(layers, a, b) {
        assert old(ShapesApart(layers, a, b));
      }
    }

    /**
     * Deletes, layer by layer, the shapes still being placed; the number
     * and the order of the layers do not change.
     */
    method RemoveShapesInCreatingMode(creating: seq<seq<bool>>)
      requires Valid() && Matches(layers, creating)
      modifies layers`children
      ensures Valid()
      ensures forall j :: 0 <= j < |layers| ==>
                layers[j].children == Finished(old(layers[j].children), creating[j])
    {
      var i := 0;
      while i < |layers|
        invariant 0 <= i <= |layers|
        invariant forall j :: 0 <= j < i ==>
                    layers[j].children == Finished(old(layers[j].children), creating[j])
        invariant layers == old(layers)
        invariant forall j :: i <= j < |layers| ==> layers[j].children == old(layers[j].children)
        invariant forall j :: i <= j < |layers| ==> |creating[j]| == |layers[j].children|
        invariant Valid()
      {
        RemoveShapesOfLayer(i, creating[i]);
        assert layers[i].children == Finished(old(layers[i].children), creating[i]);
        i := i + 1;
      }
    }
  }
}
