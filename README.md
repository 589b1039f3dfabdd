# teacher-hand scene graph, modelled in Dafny

teacher-hand ("teha") is a vector-annotation editor. A **document** is a list of
**pages**. Each page has a size, a viewport and an ordered list of **layers**.
Each layer holds an ordered list of **shapes**. The only shape is the
**line arrow**: a segment with two direction vectors (used when it is drawn as
a curve), style fields, lock/visible/selected flags, an armed editing
**action**, and child shapes.

This project models that scene graph and the editing engine that turns
pointer events into shape changes. It also models a few small helpers: the
file-name validator, the page `Size`, the error type, the view-mode names,
the application's view history, and the main window's stack routing and
document list.

How the model is built:

- Every cairo query is an input. The six hit tests of a line arrow
  (`in_stroke`/`in_fill` on the start handle, end handle, go handle, arrive
  handle, segment stroke and head fill) become the `Hits` record. Stroke and
  fill extents become `Rect` boxes.
- Coordinates are `real`. Points and vectors are `Vec2`.
- Shapes, layers, pages, documents, sizes, the application and the window
  are classes, because the program changes their fields in place.
- The line arrow's editing engine is specified by a pure transition function
  `Handle` over an `ArrowState` snapshot. Every event method of the class is
  proved to move the object's state exactly as `Handle` says.
- The layer's front-to-back dispatch loop is proved against `ShapesOffer`.
- The page's topmost-first dispatch loop is proved against `LayersOffer`.
- The properties of dispatch (first consumer wins, later shapes untouched,
  consumed iff some shape consumed) are proved as lemmas about those
  functions.
- Ownership of boxed children is modelled as lists without repeats. Shapes
  of different layers are disjoint, and layers and shapes of different pages
  are disjoint. This ownership is what lets a dispatch prove that shapes it
  did not reach keep their state.
- The older `draw_objects.rs` writes the capability methods once, as default
  bodies over `get_mut_*` accessors. An accessor's mutable reference is
  modelled as a `Cell` object that the default body changes.

Points worth knowing about the code the model follows:

- **Controller priority.** A click tries the controllers in the order start,
  end, go, arrive, segment, head (`line_arrow.rs:137-204`). Go and arrive
  hits are honoured whether or not the shape is selected or curve-like.
- **Dispatch order.** The layer's handlers go from index 0 upward
  (`layer.rs:203`, `217`, `231`). Only the page iterates in reverse, from
  its topmost layer (`page.rs:271`, `289`, `305`).
- **Operations called but not defined.** `page.rs` calls two `Layer`
  operations that `layer.rs` does not define: `remove_shapes_in_creating_mode`
  (`page.rs:103`) and `unselect_all_shapes` (`page.rs:109`). The model gives
  them the meaning their names and call sites carry:
  - unselecting clears `selected` on every shape and changes nothing else;
  - removal deletes the shapes flagged as still being created. The flag of
    each shape is an input, because this revision of the shape has no
    creation mode.
- **Missing constructor.** `Document::new` and `Document::default` call
  `Page::default`, which `page.rs` does not define. They are modelled with
  `Page::new`.
- **Index panics.** `Page::active_layer`, `Document`'s event forwarding and
  `MainWindow::get_active_document` index a list with an index that nothing
  checks. The model gives each an `Option` outcome whose `None` stands for
  the panic.

## Model

| member | source | states |
|---|---|---|
| Priority.FirstTrue | src/teha/core/draw_objects/layer.rs:203-208 | the index of the first true answer (length when none): every earlier answer is false and the answer there is true |
| Priority.LastTrue | src/teha/core/draw_objects/page.rs:271-276 | the index of the last true answer (-1 when none): every later answer is false and the answer there is true |
| Geometry.Midpoint | src/teha/core/draw_objects/line_arrow.rs:509-511 | the position of a segment is equidistant from both end points |
| Geometry.Merged | src/teha/core/draw_objects/line_arrow.rs:489-492 | merging two boxes gives a box enclosing both that is enclosed by every box enclosing both |
| Geometry.MergeAllIsLeastCover | src/teha/core/draw_objects/layer.rs:117-121 | folding merges over a list gives the least box enclosing the initial box and every listed box |
| Geometry.Present | src/teha/core/draw_objects/layer.rs:113-116 | every box some entry yields is kept, every kept box is yielded by some entry, and there are no more kept boxes than entries |
| Geometry.PresentEmpty | src/teha/core/draw_objects/layer.rs:117-120 | no box is left exactly when every entry yields none |
| Geometry.Cover | src/teha/core/draw_objects/layer.rs:117-122 | the merge of a non-empty list of boxes encloses each box and is the least such box |
| Containers.RemoveAsWritten | src/teha/core/draw_objects/line_arrow.rs:598-604 | removal with the `>` guard: an index in range removes that child and keeps the rest in order, an index past the end is rejected, and the index equal to the length reaches `Vec::remove` and panics |
| Containers.RemoveAtLengthPanics | src/teha/core/draw_objects/layer.rs:187-193 | on every list, removing at the length passes the guard and panics |
| Containers.RemoveAtLengthWitness | src/teha/core/draw_objects.rs:130-137 | a one-child container asked to remove index 1 panics and keeps its child |
| Containers.RemoveChecked | src/teha/core/draw_objects/layer.rs:187-193 | corrected removal never panics: it removes exactly when the index is in range, giving that child and the rest in order, and otherwise leaves the list alone |
| Containers.RemoveVersionsAgree | src/teha/core/draw_objects/layer.rs:187-193 | the written and corrected guards agree on every index except the length |
| Containers.DistinctCons | src/teha/core/draw_objects/layer.rs:59-60 | a new child put in front of distinct children keeps them distinct |
| Capabilities.DefaultResponse | src/teha/core/draw_objects/mod.rs:73-93 | the default handlers never consume an event, so it propagates |
| LineArrows.Radius | src/teha/core/draw_objects/line_arrow.rs:114-123 | handle radius is always between 3 and 9, and is 0.4 times the width for widths from 10 to 20 |
| LineArrows.RadiusMonotone | src/teha/core/draw_objects/line_arrow.rs:114-123 | a wider stroke never gets a smaller handle |
| LineArrows.SelectController | src/teha/core/draw_objects/line_arrow.rs:137-204 | no action exactly when nothing is hit; otherwise the first hit controller in the order start, end, go, arrive, segment, head decides: start/end arm an end-point move only on a selected shape and a body move otherwise, go/arrive arm their direction move, segment/head arm a body move |
| LineArrows.FirstClickMovesBody | src/teha/core/draw_objects/line_arrow.rs:147-164 | on an unselected shape a click never arms a start- or end-point move |
| LineArrows.DirectionHandleBeatsBody | src/teha/core/draw_objects/line_arrow.rs:167-193 | with no end-point hit, a go-handle hit (else an arrive-handle hit) wins over the segment and head |
| LineArrows.PressStep | src/teha/core/draw_objects/line_arrow.rs:642-663 | a press leaves geometry and flags alone; it is consumed exactly when the shape is unlocked, visible, button 1 and something is hit; locked, hidden or other buttons change nothing; otherwise the armed action is the controller's and the shape is selected exactly when the press is consumed |
| LineArrows.MotionStep | src/teha/core/draw_objects/line_arrow.rs:609-640 | a motion never changes flags, selection or action, and changes nothing unless the shape is unlocked, visible, the modifier state is exactly button 1 and an action is armed |
| LineArrows.Handle | src/teha/core/draw_objects/line_arrow.rs:609-663 | a motion is never consumed, and a release changes nothing and is not consumed |
| LineArrows.DragBodyTranslates | src/teha/core/draw_objects/line_arrow.rs:142-143 | after a press that arms a body move, dragging to q shifts both end points by q minus the press point, keeps the segment's vector, and dragging to the press point restores the segment |
| LineArrows.DragEndPointReplacesOne | src/teha/core/draw_objects/line_arrow.rs:228-238 | dragging an end point replaces exactly that end point with the pointer |
| LineArrows.DragDirectionFollowsPointer | src/teha/core/draw_objects/line_arrow.rs:214-226 | dragging a direction handle puts anchor plus direction at the pointer and leaves the segment alone |
| LineArrows.ReleaseKeepsAction | src/teha/core/draw_objects/mod.rs:88-93 | a release does not disarm the shape |
| LineArrows.MergeExtents | src/teha/core/draw_objects/line_arrow.rs:489-493 | the merge loop over a non-empty list gives a box enclosing each box that is enclosed by every box enclosing them all |
| LineArrows.Translated | src/teha/core/draw_objects/line_arrow.rs:524-528 | translating keeps the segment's vector |
| LineArrows.TranslateRoundTrip | src/teha/core/draw_objects/line_arrow.rs:524-528 | translating by t then by -t restores the segment |
| LineArrows.LineArrow.constructor | src/teha/core/draw_objects/line_arrow.rs:68-91 | a new shape has the given style and segment, no children, empty name, zero directions, is unlocked, visible, unselected and unarmed |
| LineArrows.LineArrow.FromSegment | src/teha/core/draw_objects/line_arrow.rs:93-112 | a shape from a segment is an opaque black straight line of width 10 with round cap and join, no dashes |
| LineArrows.LineArrow.InDraw | src/teha/core/draw_objects/line_arrow.rs:441-446 | the pointer is on the shape exactly when one of its six hit tests succeeds |
| LineArrows.LineArrow.DrawExtents | src/teha/core/draw_objects/line_arrow.rs:448-494 | the extents always exist and are the least box enclosing every drawn part's box |
| LineArrows.LineArrow.Position | src/teha/core/draw_objects/line_arrow.rs:509-511 | the position is the midpoint of the segment |
| LineArrows.LineArrow.MoveTo | src/teha/core/draw_objects/line_arrow.rs:513-522 | afterwards the position is the given point and the segment keeps its vector |
| LineArrows.LineArrow.TranslateBy | src/teha/core/draw_objects/line_arrow.rs:524-528 | both end points are moved by t |
| LineArrows.LineArrow.SetName | src/teha/core/draw_objects/line_arrow.rs:502-504 | the name becomes the given one |
| LineArrows.LineArrow.Lock | src/teha/core/draw_objects/line_arrow.rs:552-556 | afterwards the shape is locked whatever it was (idempotent) |
| LineArrows.LineArrow.Unlock | src/teha/core/draw_objects/line_arrow.rs:558-562 | afterwards the shape is unlocked whatever it was (idempotent) |
| LineArrows.LineArrow.ToggleLock | src/teha/core/draw_objects/line_arrow.rs:564-567 | the flag is flipped and the new value returned, so two toggles restore it |
| LineArrows.LineArrow.Show | src/teha/core/draw_objects/line_arrow.rs:575-579 | afterwards the shape is visible whatever it was (idempotent) |
| LineArrows.LineArrow.Hide | src/teha/core/draw_objects/line_arrow.rs:581-585 | afterwards the shape is hidden whatever it was (idempotent) |
| LineArrows.LineArrow.ToggleVisible | src/teha/core/draw_objects/line_arrow.rs:587-590 | the flag is flipped and the new value returned, so two toggles restore it |
| LineArrows.LineArrow.Add | src/teha/core/draw_objects/line_arrow.rs:594-596 | the child is appended after the existing ones |
| LineArrows.LineArrow.Remove | src/teha/core/draw_objects/line_arrow.rs:598-604 | removal as `Containers.RemoveChecked` describes it |
| LineArrows.LineArrow.MotionNotify | src/teha/core/draw_objects/line_arrow.rs:609-640 | the shape's state moves as `MotionStep` says and the motion is never consumed |
| LineArrows.LineArrow.ButtonPress | src/teha/core/draw_objects/line_arrow.rs:642-663 | the shape's state and the answer are those of `PressStep` |
| LineArrows.LineArrow.ButtonRelease | src/teha/core/draw_objects/mod.rs:88-93 | the release is not consumed and nothing changes |
| LineArrows.LineArrow.HandleEvent | src/teha/core/draw_objects/line_arrow.rs:609-663 | any event moves the shape's state and answer exactly as `Handle` says, and changes only the segment, the directions, the action and the selection |
| Layers.ShapesOffer | src/teha/core/draw_objects/layer.rs:196-238 | front-to-back dispatch keeps the number of shapes |
| Layers.LayerConsumesIffSomeShape | src/teha/core/draw_objects/layer.rs:196-238 | a layer consumes an event exactly when one of its shapes does; when none does, every shape has handled it |
| Layers.OfferStopsAtFirstConsumer | src/teha/core/draw_objects/layer.rs:203-207 | when shape k is the first to consume, the layer consumes, shapes up to k have handled the event and shapes after k are untouched |
| Layers.LayerPassesRelease | src/teha/core/draw_objects/layer.rs:225-237 | a release passes through a layer unconsumed and changes no shape |
| Layers.MotionReachesEveryShape | src/teha/core/draw_objects/layer.rs:197-209 | no shape consumes a motion, so every shape of the layer applies it |
| Layers.PressUnselectsMissedShapes | src/teha/core/draw_objects/layer.rs:211-223 | a primary press unselects and disarms every unlocked visible shape before the one that takes it |
| Layers.OfferOutcome | src/teha/core/draw_objects/layer.rs:203-208 | a dispatch that stopped at the first consumer (or ran to the end) ends in the state `ShapesOffer` describes |
| Layers.Layer.constructor | src/teha/core/draw_objects/layer.rs:41-68 | a new layer is unlocked, visible, named "Unnamed Layer" and holds exactly one new curve-like sample arrow with the listed colour, width, segment and directions, round cap and join, no dashes, zero offset, no name and no children, unlocked, visible, unselected and unarmed |
| Layers.Layer.Default | src/teha/core/draw_objects/layer.rs:71-80 | the default layer has no children and is unlocked and visible |
| Layers.Layer.InDraw | src/teha/core/draw_objects/layer.rs:95-106 | a hidden layer is never hit; a visible one is hit exactly when some shape is |
| Layers.Layer.DrawExtents | src/teha/core/draw_objects/layer.rs:108-123 | none exactly when no shape yields a box (so also with no shapes); otherwise a box enclosing every shape's box and enclosed by every box enclosing them all |
| Layers.Layer.SetName | src/teha/core/draw_objects/layer.rs:131-133 | the name becomes the given one |
| Layers.Layer.Lock | src/teha/core/draw_objects/layer.rs:141-145 | afterwards the layer is locked whatever it was (idempotent) |
| Layers.Layer.Unlock | src/teha/core/draw_objects/layer.rs:147-151 | afterwards the layer is unlocked whatever it was (idempotent) |
| Layers.Layer.ToggleLock | src/teha/core/draw_objects/layer.rs:153-156 | the flag is flipped and the new value returned |
| Layers.Layer.Show | src/teha/core/draw_objects/layer.rs:164-168 | afterwards the layer is visible whatever it was (idempotent) |
| Layers.Layer.Hide | src/teha/core/draw_objects/layer.rs:170-174 | afterwards the layer is hidden whatever it was (idempotent) |
| Layers.Layer.ToggleVisible | src/teha/core/draw_objects/layer.rs:176-179 | the flag is flipped and the new value returned |
| Layers.Layer.Add | src/teha/core/draw_objects/layer.rs:183-185 | the shape is appended after the existing ones and ownership is kept |
| Layers.Layer.Remove | src/teha/core/draw_objects/layer.rs:187-193 | removal as `Containers.RemoveChecked` describes it, keeping ownership |
| Layers.Layer.Offer | src/teha/core/draw_objects/layer.rs:196-238 | the loop over the shapes leaves them and answers exactly as `ShapesOffer` says, without consulting the layer's own flags; only the shapes' segment, directions, action and selection can change |
| Layers.Layer.UnselectAllShapes | src/teha/core/draw_objects/page.rs:107-111 | every shape of the layer ends unselected; no other field of any shape changes |
| Layers.Layer.RemoveShapesInCreatingMode | src/teha/core/draw_objects/page.rs:101-105 | the layer keeps exactly its shapes not being created, in order, and ownership |
| Layers.Finished | src/teha/core/draw_objects/page.rs:101-105 | the kept shapes are no more than, and all drawn from, the shapes given |
| Layers.FinishedMembers | src/teha/core/draw_objects/page.rs:101-105 | every shape not being created is kept, and every kept shape is one that was not being created |
| Layers.FinishedAppend | src/teha/core/draw_objects/page.rs:101-105 | filtering a list extended by one shape extends the filtered list by that shape when it is kept |
| Layers.FinishedKeepsOwnership | src/teha/core/draw_objects/page.rs:101-105 | filtering distinct shapes leaves them distinct |
| Types.Size.constructor | src/teha/common/types.rs:35-40 | a new size has the given width and height |
| Types.Size.Resize | src/teha/common/types.rs:42-45 | afterwards the size is exactly the given one whatever it was, so resizing twice to the same values equals resizing once |
| Types.EqualsIsEquivalence | src/teha/common/types.rs:22 | derived size equality is reflexive, symmetric and transitive |
| Pages.LayersOffer | src/teha/core/draw_objects/page.rs:263-311 | topmost-first dispatch keeps the number of layers |
| Pages.PageConsumesIffSomeLayer | src/teha/core/draw_objects/page.rs:263-311 | a page consumes an event exactly when one of its layers does |
| Pages.LayersOfferOutcome | src/teha/core/draw_objects/page.rs:271-276 | a dispatch that stopped at the topmost consumer (or ran below the first layer) ends in the state `LayersOffer` describes |
| Pages.TopmostConsumerWins | src/teha/core/draw_objects/page.rs:271-276 | when layer k is the topmost to consume, the page consumes, layers from the top down to k have handled the event and layers below k are untouched |
| Pages.PagePassesRelease | src/teha/core/draw_objects/page.rs:297-311 | a release passes through a page unconsumed and changes no shape |
| Pages.Page.constructor | src/teha/core/draw_objects/page.rs:47-59 | a new page is 800 x 600 with one new layer (active index 0), white colour, grey 0.47 border, no grid, name "Unnamed Page", no translation and zoom 1 |
| Pages.Page.SetSize | src/teha/core/draw_objects/page.rs:69-71 | overwrites the size only |
| Pages.Page.SetLayers | src/teha/core/draw_objects/page.rs:81-83 | overwrites the layers only |
| Pages.Page.ActiveLayer | src/teha/core/draw_objects/page.rs:85-87 | the layer at the active index; `None`, standing for the panic, exactly when the index is outside the layer list |
| Pages.Page.SetActiveLayerIndex | src/teha/core/draw_objects/page.rs:97-99 | overwrites the index without checking it against the layers |
| Pages.Page.SetColor | src/teha/core/draw_objects/page.rs:121-123 | overwrites the colour only |
| Pages.Page.SetGrid | src/teha/core/draw_objects/page.rs:141-143 | overwrites the grid colour only |
| Pages.Page.SetName | src/teha/core/draw_objects/page.rs:153-155 | overwrites the name only |
| Pages.Page.SetTranslate | src/teha/core/draw_objects/page.rs:165-167 | overwrites the translation only |
| Pages.Page.SetZoomLevel | src/teha/core/draw_objects/page.rs:173-175 | overwrites the zoom level only |
| Pages.Page.PageBound | src/teha/core/draw_objects/page.rs:177-182 | the rectangle from the origin spanning the page's width and height |
| Pages.Page.DrawExtents | src/teha/core/draw_objects/page.rs:231-261 | always a box; it encloses the border's fill and stroke boxes and every layer box, equals the border box when no layer yields one, and is the least such box |
| Pages.Page.InDraw | src/teha/core/draw_objects/page.rs:217-229 | true exactly when some layer reports a hit |
| Pages.Page.Offer | src/teha/core/draw_objects/page.rs:263-311 | the reverse loop over the layers leaves them and answers exactly as `LayersOffer` says; only the shapes' segment, directions, action and selection can change |
| Pages.Page.OfferLayer | src/teha/core/draw_objects/page.rs:271-275 | offering to one layer changes it as `ShapesOffer` says, touches only its shapes' segment, directions, action and selection, and leaves every other layer's shapes alone |
| Pages.Page.OfferKey | src/teha/core/draw_objects/page.rs:313-337 | a key event is taken by the topmost layer that answers true, and consumed exactly when some layer does |
| Pages.Page.UnselectAllShapes | src/teha/core/draw_objects/page.rs:107-111 | every shape of every layer ends unselected and no other field of any shape changes, with the same layers in the same order |
| Pages.Page.RemoveShapesOfLayer | src/teha/core/draw_objects/page.rs:102-104 | one layer keeps its shapes not being created, every other layer keeps its shapes, only the children lists can change, and ownership is kept |
| Pages.Page.RemoveShapesInCreatingMode | src/teha/core/draw_objects/page.rs:101-105 | every layer keeps exactly its shapes not being created, with the same layers in the same order; only the layers' children lists change |
| Documents.Document.constructor | src/teha/core/mod.rs:39-54 | exactly n pages, each of the given size, page number 0, the given path and transparency; the page number is in range exactly when n > 0 |
| Documents.Document.Default | src/teha/core/mod.rs:83-92 | one page, page number 0, empty path, transparent |
| Documents.Document.Offer | src/teha/core/mod.rs:70-80 | `None`, standing for the panic, exactly when the page number is out of range, and then no shape changes; otherwise the event acts on that page as `LayersOffer` says, its answer is returned, and every other page's shapes keep their state |
| Documents.Document.OfferToPage | src/teha/core/mod.rs:70-80 | with the page number in range, the event acts on that page's layers exactly as `LayersOffer` says and the page's answer is returned; only that page's shapes' segment, directions, action and selection can change, so every other page's shapes keep their state |
| Documents.AppendPage | src/teha/core/mod.rs:41-46 | appends one page of the given size, keeps the earlier pages and their ownership |
| Documents.PagesOwnedExtend | src/teha/core/mod.rs:41-46 | adding a page sharing no layer or shape with the others keeps ownership |
| LegacyObjects.SetName | src/teha/core/draw_objects.rs:48-50 | the stored name becomes the given one |
| LegacyObjects.MoveTo | src/teha/core/draw_objects.rs:57-61 | adds `pos` to the current position: a relative shift by exactly `pos` |
| LegacyObjects.Transform | src/teha/core/draw_objects.rs:63-66 | adds the vector to the position |
| LegacyObjects.Lock | src/teha/core/draw_objects.rs:73-78 | afterwards the flag is set whatever it was (idempotent) |
| LegacyObjects.Unlock | src/teha/core/draw_objects.rs:80-85 | afterwards the flag is clear whatever it was (idempotent) |
| LegacyObjects.ToggleLock | src/teha/core/draw_objects.rs:87-92 | the flag is flipped and the new value returned |
| LegacyObjects.Show | src/teha/core/draw_objects.rs:99-104 | afterwards the flag is set whatever it was (idempotent) |
| LegacyObjects.Hide | src/teha/core/draw_objects.rs:106-111 | afterwards the flag is clear whatever it was (idempotent) |
| LegacyObjects.ToggleVisible | src/teha/core/draw_objects.rs:113-118 | the flag is flipped and the new value returned |
| LegacyObjects.Add | src/teha/core/draw_objects.rs:125-128 | the child is appended after the existing ones |
| LegacyObjects.Remove | src/teha/core/draw_objects.rs:130-137 | removal as `Containers.RemoveChecked` describes it |
| LegacyObjects.LineArrow.constructor | src/teha/core/draw_objects.rs:224-244 | a line arrow built from its fields, with one distinct cell per accessor |
| LegacyObjects.LineArrow.Line | src/teha/core/draw_objects.rs:268-281 | the drawn segment runs from the origin by the size vector |
| LegacyObjects.MoveLineArrow | src/teha/core/draw_objects.rs:305-313 | moving through the position accessor shifts `line.origin`, so the whole segment shifts by `pos`, `line.size` is unchanged and the flags stay |
| LegacyObjects.LockLineArrow | src/teha/core/draw_objects.rs:315-323 | locking through the lock accessor leaves visibility and the segment alone |
| LegacyObjects.Layer.constructor | src/teha/core/draw_objects.rs:164-169 | a layer built from its fields, with one distinct cell per accessor |
| LegacyObjects.HideLayer | src/teha/core/draw_objects.rs:201-209 | hiding through the visibility accessor leaves the lock and the children alone |
| Filenames.CharBytes | src/teha/common/string.rs:29 | a character takes one to four bytes, one exactly for ASCII |
| Filenames.Utf8LengthBounds | src/teha/common/string.rs:25-31 | a name takes at least one and at most four bytes per character, and zero bytes exactly when it is empty |
| Filenames.AsciiLength | src/teha/common/string.rs:29-31 | an ASCII name has as many bytes as characters |
| Filenames.RepeatedLength | src/teha/common/string.rs:29-31 | n copies of a character take n times its bytes |
| Filenames.IsValidFilename | src/teha/common/string.rs:24-38 | accepted exactly when the name has 1 to 63 bytes and no slash; any refusal carries one of the three messages |
| Filenames.MessagesDistinct | src/teha/common/string.rs:26-34 | the three messages differ |
| Filenames.RefusalReasons | src/teha/common/string.rs:24-38 | the empty message exactly for the empty name, the length message exactly beyond 63 bytes, the slash message exactly for a non-empty name within the limit holding a slash |
| Filenames.LengthCheckedBeforeSlash | src/teha/common/string.rs:29-35 | a name too long and holding a slash reports the length |
| Filenames.AsciiNameAccepted | src/teha/common/string.rs:24-38 | an ASCII name is accepted exactly when it has 1 to 63 characters and no slash |
| Filenames.LimitCountsBytes | src/teha/common/string.rs:29-31 | 32 two-byte letters are refused with the 63-letter message |
| Filenames.IsValidSize | src/teha/common/string.rs:40-42 | the size is always accepted |
| Errors.Display | src/teha/error.rs:31-38 | the text starts with the kind's prefix and continues with the I/O error's text or the message |
| Errors.Description | src/teha/error.rs:41-46 | the message itself, or the I/O error's description |
| Errors.Cause | src/teha/error.rs:48-53 | present exactly for an I/O error, and then it is that error |
| Errors.FromIo | src/teha/error.rs:56-60 | the built error has the I/O error as cause and its description |
| Errors.FromMessage | src/teha/error.rs:62-66 | the built error has no cause, describes itself by the message and displays it after the message prefix |
| Errors.DisplayDistinguishes | src/teha/error.rs:31-38 | errors that display alike are of one kind, and message errors that display alike are equal |
| ViewModes.Name | src/teha/gui/mod.rs:37-47 | every view has a name of its own: reading the name back with the independent reading of the six page names gives the view |
| ViewModes.AllModesComplete | src/teha/gui/mod.rs:28-35 | the list of six views holds every view |
| ViewModes.NameInjective | src/teha/gui/mod.rs:39-46 | distinct views have distinct names |
| MainWindows.Route | src/teha/gui/main_window.rs:200-221 | preferences switches nothing; every other view makes two switches, the second showing its own page off the root stack; every page shown is the name of a view, and the root stack only ever shows the start-up or editing page |
| MainWindows.ShownAfter | src/teha/gui/main_window.rs:200-221 | a stack shows what it showed before or a page a switch of the route gave it |
| MainWindows.RouteTable | src/teha/gui/main_window.rs:200-221 | start-up shows start-up in root and start-up stacks; creating/importing keep the root on start-up and show their page; editing/previewing put the root on editing and show their page; preferences changes nothing; unused stacks keep their page |
| MainWindows.Window.constructor | src/teha/gui/main_window.rs:102-103 | a new window has no documents and active index 0 |
| MainWindows.Window.UpdateView | src/teha/gui/main_window.rs:200-221 | each stack ends as the route of the view leaves it |
| MainWindows.Window.NewDocuments | src/teha/gui/main_window.rs:223-225 | the document is appended and the active index is untouched |
| MainWindows.Window.SetActiveDocumentIndex | src/teha/gui/main_window.rs:156-158 | overwrites the index without checking it |
| MainWindows.Window.GetActiveDocument | src/teha/gui/main_window.rs:144-146 | the document at the active index; `None`, standing for the panic, exactly when the index is outside the list, as in a new window |
| Applications.Updated | src/teha/gui/app.rs:88-93 | the view becomes the requested one; the last view becomes the view being left when that is start-up or editing, and is kept otherwise |
| Applications.UpdatedKeepsHome | src/teha/gui/app.rs:88-93 | the last view stays start-up or editing |
| Applications.BackReturnsHome | src/teha/gui/header_bar.rs:93-96 | leaving a home view for a non-home view and pressing back returns to that home view, with that view as last view |
| Applications.CreatingWorkBackToStartUp | src/teha/gui/header_bar.rs:93-96 | from start-up, creating then back shows start-up |
| Applications.Application.constructor | src/teha/gui/app.rs:64-66 | a new application uses the controller tool and is in start-up with start-up as last view |
| Applications.Application.UpdateView | src/teha/gui/app.rs:88-100 | the view history moves as `Updated` says, the last view stays start-up or editing, and the window's stacks follow the route of the new view |
| Applications.Application.Back | src/teha/gui/header_bar.rs:93-96 | back is an update to the last view: it shows the last view, which is start-up or editing, the history moves as `Updated` says, and the window's stacks follow the route of that view |

## Left out

- Rendering is not modelled: every `draw` body, the draw helpers of the line arrow, the page background, and `Document::draw`. They only issue cairo paint calls.
- `rotate_by` and the arrow-head angle computation are not modelled; they need trigonometry.
- The cairo queries `in_stroke`, `in_fill`, `stroke_extents` and `fill_extents` are inputs. The conversion of their boxes to device space (`user_to_device_rect`) is folded into those inputs.
- The page's device-to-user conversion of the pointer position goes through `core/context.rs`, which is not part of this model. Events carry the user-space position.
- The `save`/`restore` pairing that `select_controller` skips on an early return is not modelled, because it only affects the cairo context.
- `Document::name` and `set_name` are not modelled: they ask the file system whether the path is a file.
- GTK wiring is not modelled: widget lookups, signal closures, the header bar's own `update_view`, menus and actions.
- Message translation through `gettext` is the identity here.
- Integer widths are not modelled: `usize` indices are `nat`, `i32` sizes are `int`, `f64` is `real`.
- Z-order moves, flips, creation modes and layer key handlers are only called, never defined, in these files. `Pages.Page.OfferKey` therefore takes each layer's answer as an input.
- The capability traits themselves are not modelled, because the model has no dynamic dispatch. The only shape is the line arrow, so `Box<ShapeTrait>` children are `LineArrow` references.
- The old `Event` defaults in `draw_objects.rs` take `&self` and do nothing, so they have no state to model. The old `Page` struct only draws.
- `LineArrows.LineArrow.Remove`, `Layers.Layer.Remove`, `LegacyObjects.Remove`: these use the corrected guard (see Findings). The guard as written is `Containers.RemoveAsWritten`.
- `Pages.Page.SetSize`: the size is a reference shared with the caller, whereas Rust moves a value in.
- `Layers.Layer.Add`: it requires the child not to be held already. Rust ownership of the `Box` guarantees this.
- `ToolKind` and `CurrentTool`: the tool enum is defined outside these files; the model keeps only the controller tool a new application starts with.
- `page.rs:290` passes an options panel to the layer's `button_press`, which in `layer.rs` takes none. The options panel is not modelled.

## Findings

| source | as written | input that shows it | evidently intended | confidence | as-written member | corrected member |
|---|---|---|---|---|---|---|
| src/teha/core/draw_objects/layer.rs:187-193 | `remove` rejects only `index > len`, so `index == len` reaches `Vec::remove`, which panics; the line arrow and the older default `remove` use the same guard | a container with one child, `remove(1)` | reject every `index >= len` and return `None` | not executed | Containers.RemoveAtLengthWitness | Containers.RemoveChecked |
