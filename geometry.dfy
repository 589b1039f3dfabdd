/**
 * Plane geometry and drawing value types shared by the scene graph:
 * points and vectors as pairs of reals, segments, axis-aligned boxes and
 * their merge (the `Rectangle` of the scene graph), colours and stroke styles.
 */
module Geometry {

  import opened Wrappers

  /** A point or a vector of the plane. */
  datatype Vec2 = Vec2(x: real, y: real) {

    function Plus(v: Vec2): Vec2 {
      Vec2(x + v.x, y + v.y)
    }

    function Minus(v: Vec2): Vec2 {
      Vec2(x - v.x, y - v.y)
    }

    function Negated(): Vec2 {
      Vec2(-x, -y)
    }
  }

  /** A straight segment from `a` to `b`. */
  datatype Segment = Segment(a: Vec2, b: Vec2)

  /** The centre of the segment from a to b. */
  function Midpoint(a: Vec2, b: Vec2): (m: Vec2)
    ensures m.Minus(a) == b.Minus(m)
  {
    Vec2((a.x + b.x) / 2.0, (a.y + b.y) / 2.0)
  }

  /** An axis-aligned box given by its least and greatest corners. */
  datatype Rect = Rect(mins: Vec2, maxs: Vec2)

  /** `outer` covers `inner` on both axes. */
  predicate Encloses(outer: Rect, inner: Rect) {
    && outer.mins.x <= inner.mins.x && inner.maxs.x <= outer.maxs.x
    && outer.mins.y <= inner.mins.y && inner.maxs.y <= outer.maxs.y
  }

  /** `outer` covers every box of `boxes`. */
  predicate EnclosesAll(outer: Rect, boxes: seq<Rect>) {
    forall j :: 0 <= j < |boxes| ==> Encloses(outer, boxes[j])
  }

  function Min(u: real, v: real): real {
    if u <= v then u else v
  }

  function Max(u: real, v: real): real {
    if u <= v then v else u
  }

  /** The merge of two boxes: the least box covering both. */
  function Merged(r: Rect, s: Rect): (m: Rect)
    ensures Encloses(m, r) && Encloses(m, s)
    ensures forall o :: Encloses(o, r) && Encloses(o, s) ==> Encloses(o, m)
  {
    Rect(Vec2(Min(r.mins.x, s.mins.x), Min(r.mins.y, s.mins.y)),
         Vec2(Max(r.maxs.x, s.maxs.x), Max(r.maxs.y, s.maxs.y)))
  }

  /** Left fold of `Merged` over `rest`, starting from `init`. */
  function MergeAll(init: Rect, rest: seq<Rect>): Rect
    decreases |rest|
  {
    if rest == [] then init else MergeAll(Merged(init, rest[0]), rest[1..])
  }

  /** Folding merges gives the least box covering the initial box and every other one. */
  lemma {:induction false} MergeAllIsLeastCover(init: Rect, rest: seq<Rect>)
    ensures Encloses(MergeAll(init, rest), init)
    ensures EnclosesAll(MergeAll(init, rest), rest)
    ensures forall o :: Encloses(o, init) && EnclosesAll(o, rest) ==> Encloses(o, MergeAll(init, rest))
    decreases |rest|
  {
    if rest != [] {
      var m := Merged(init, rest[0]);
      MergeAllIsLeastCover(m, rest[1..]);
      var r := MergeAll(m, rest[1..]);
      assert r == MergeAll(init, rest);
      assert Encloses(r, m);
      assert EnclosesAll(r, rest) by {
        forall j | 0 <= j < |rest| ensures Encloses(r, rest[j]) {
          if j > 0 { assert rest[j] == rest[1..][j - 1]; }
        }
      }
      forall o | Encloses(o, init) && EnclosesAll(o, rest) ensures Encloses(o, r) {
        assert Encloses(o, rest[0]);
        assert EnclosesAll(o, rest[1..]) by {
          forall j | 0 <= j < |rest[1..]| ensures Encloses(o, rest[1..][j]) {
            assert rest[1..][j] == rest[j + 1];
          }
        }
      }
    }
  }

  /** The boxes actually produced, in order (Rust's `filter_map`). */
  function Present(boxes: seq<Option<Rect>>): (r: seq<Rect>)
    ensures |r| <= |boxes|
    ensures forall j :: 0 <= j < |boxes| && boxes[j].Some? ==> boxes[j].value in r
    ensures forall x :: x in r ==> Some(x) in boxes
  {
    if boxes == [] then []
    else if boxes[0].Some? then [boxes[0].value] + Present(boxes[1..])
    else Present(boxes[1..])
  }

  /** No box is produced exactly when every entry is absent. */
  lemma {:induction false} PresentEmpty(boxes: seq<Option<Rect>>)
    ensures Present(boxes) == [] <==> forall j :: 0 <= j < |boxes| ==> boxes[j].None?
  {
    if Present(boxes) != [] {
      var x := Present(boxes)[0];
      assert Some(x) in boxes;
    }
  }

  /** Folding the merges of a non-empty list covers all of it, and only what is needed. */
  function Cover(boxes: seq<Rect>): (r: Rect)
    requires boxes != []
    ensures EnclosesAll(r, boxes)
    ensures forall o :: EnclosesAll(o, boxes) ==> Encloses(o, r)
  {
    MergeAllIsLeastCover(boxes[0], boxes[1..]);
    var r := MergeAll(boxes[0], boxes[1..]);
    assert EnclosesAll(r, boxes) by {
      forall j | 0 <= j < |boxes| ensures Encloses(r, boxes[j]) {
        if j > 0 { assert boxes[j] == boxes[1..][j - 1]; }
      }
    }
    assert forall o :: EnclosesAll(o, boxes) ==> EnclosesAll(o, boxes[1..]) by {
      forall o | EnclosesAll(o, boxes) ensures EnclosesAll(o, boxes[1..]) {
        forall j | 0 <= j < |boxes[1..]| ensures Encloses(o, boxes[1..][j]) {
          assert boxes[1..][j] == boxes[j + 1];
        }
      }
    }
    r
  }

  /** An RGB colour with channels in [0, 1]. */
  datatype RgbColor = RgbColor(red: real, green: real, blue: real)

  /** An RGB colour with an alpha channel. */
  datatype RgbaColor = RgbaColor(color: RgbColor, alpha: real)

  function Rgba(red: real, green: real, blue: real, alpha: real): RgbaColor {
    RgbaColor(RgbColor(red, green, blue), alpha)
  }

  /** Cairo's line cap and line join styles. */
  datatype LineCap = Butt | RoundCap | Square
  datatype LineJoin = Miter | RoundJoin | Bevel
}
