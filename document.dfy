/**
 * A document: its pages, the index of the page being edited, the file it
 * is kept in and whether its background is transparent. Every pointer
 * event goes to the page being edited and to no other.
 */
module Documents {

  import opened Wrappers
  import opened Capabilities
  import opened Containers
  import opened LineArrows
  import opened Layers
  import opened Pages
  import opened Types

  /** The layers of every page of the list. */
  ghost function LayersOfPages(pages: seq<Page>): set<Layer>
    reads pages
  {
    set p, l | p in pages && l in p.layers :: l
  }

  /** The layers of one page. */
  ghost function LayerSet(p: Page): set<Layer>
    reads p
  {
    set l | l in p.layers
  }

  /**
   * Ownership of a document's pages: each page is held once and is well
   * formed, and no layer and no shape belongs to two pages.
   */
  ghost predicate PagesOwned(pages: seq<Page>)
    reads pages, LayersOfPages(pages)
  {
    && Distinct(pages)
    && (forall j :: 0 <= j < |pages| ==>
          assert LayerSet(pages[j]) <= LayersOfPages(pages);
          pages[j].Valid())
    && (forall i, j :: 0 <= i < j < |pages| ==>
          assert LayerSet(pages[i]) <= LayersOfPages(pages) && LayerSet(pages[j]) <= LayersOfPages(pages);
          LayerSet(pages[i]) !! LayerSet(pages[j]) && ShapesOf(pages[i].layers) !! ShapesOf(pages[j].layers))
  }

  class Document {
    var pages: seq<Page>
    var pageNumber: nat
    var path: string
    var transparent: bool

    ghost predicate Valid()
      reads this, pages, LayersOfPages(pages)
    {
      PagesOwned(pages)
    }

    /**
     * A document of `count` new pages, each resized to `size`, editing the
     * first page. With no pages, the page index is out of range, so
     * forwarding an event panics.
     */
    constructor (count: nat, path: string, size: Size, transparent: bool)
      ensures Valid()
      ensures |pages| == count && pageNumber == 0
      ensures this.path == path && this.transparent == transparent
      ensures forall j :: 0 <= j < count ==>
                pages[j].size.width == size.width && pages[j].size.height == size.height
      ensures pageNumber < |pages| <==> count > 0
    {
      var made: seq<Page> := [];
      var k := 0;
      while k < count
        invariant k <= count && |made| == k
        invariant forall j :: 0 <= j < k ==>
                    made[j].size.width == size.width && made[j].size.height == size.height
        invariant PagesOwned(made)
      {
        made := AppendPage(made, size);
        k := k + 1;
      }
      pages := made;
      pageNumber := 0;
      this.path := path;
      this.transparent := transparent;
    }

    /** A document of one new page, with no file and a transparent background. */
    constructor Default()
      ensures Valid()
      ensures |pages| == 1 && fresh(pages[0]) && pageNumber == 0
      ensures path == "" && transparent
    {
      var page := new Page();
      pages := [page];
      pageNumber := 0;
      path := "";
      transparent := true;
    }

    /** The shapes of the page being edited; none when the page number is out of range. */
    ghost function EditedShapes(): set<LineArrow>
      reads this, pages, LayersOfPages(pages)
    {
      if pageNumber < |pages| then
        assert LayerSet(pages[pageNumber]) <= LayersOfPages(pages);
        ShapesOf(pages[pageNumber].layers)
      else {}
    }

    /**
     * Forwards a pointer event to the page being edited and answers what it
     * answers; the shapes of every other page keep their state. The page is
     * found by indexing, which panics when the page number is out of range
     * (as it is in a document of no pages): that outcome is `None`, and
     * then no shape changes.
     */
    method Offer(e: Event, hits: seq<seq<Hits>>) returns (r: Option<bool>)
      requires Valid()
      requires pageNumber < |pages| ==> Matches(pages[pageNumber].layers, hits)
      modifies EditedShapes()`segment, EditedShapes()`goDir, EditedShapes()`arriveDir,
               EditedShapes()`action, EditedShapes()`selected
      ensures r.None? <==> pageNumber >= |pages|
      ensures r.Some? ==>
                (StatesOfLayers(pages[pageNumber].layers), r.value)
                == LayersOffer(old(StatesOfLayers(pages[pageNumber].layers)), e, hits)
      ensures forall j :: 0 <= j < |pages| && j != pageNumber ==>
                StatesOfLayers(pages[j].layers) == old(StatesOfLayers(pages[j].layers))
    {
      if pageNumber < |pages| {
        var consumed := OfferToPage(e, hits);
        r := Some(consumed);
      } else {
        r := None;
      }
    }

    /** Forwards a pointer event to the page being edited, which exists. */
    method OfferToPage(e: Event, hits: seq<seq<Hits>>) returns (consumed: bool)
      requires Valid() && pageNumber < |pages|
      requires Matches(pages[pageNumber].layers, hits)
      modifies ShapesOf(pages[pageNumber].layers)`segment, ShapesOf(pages[pageNumber].layers)`goDir,
               ShapesOf(pages[pageNumber].layers)`arriveDir, ShapesOf(pages[pageNumber].layers)`action,
               ShapesOf(pages[pageNumber].layers)`selected
      ensures (StatesOfLayers(pages[pageNumber].layers), consumed)
              == LayersOffer(old(StatesOfLayers(pages[pageNumber].layers)), e, hits)
      ensures forall j :: 0 <= j < |pages| && j != pageNumber ==>
                StatesOfLayers(pages[j].layers) == old(StatesOfLayers(pages[j].layers))
    {
      PageApartFromOthers(pages, pageNumber);
      consumed := pages[pageNumber].Offer(e, hits);
      forall j | 0 <= j < |pages| && j != pageNumber
        ensures StatesOfLayers(pages[j].layers) == old(StatesOfLayers(pages[j].layers))
      {
        StatesOfLayersKept(pages[j].layers);
      }
    }
  }

  /** Appends a new page resized to `size`; the pages already made are not touched. */
  method AppendPage(made: seq<Page>, size: Size) returns (more: seq<Page>)
    requires PagesOwned(made)
    ensures PagesOwned(more)
    ensures |more| == |made| + 1 && more[..|made|] == made
    ensures more[|made|].size.width == size.width && more[|made|].size.height == size.height
  {
    var page := new Page();
    page.size.Resize(size.width, size.height);
    assert LayerSet(page) == {page.layers[0]};
    PagesOwnedExtend(made, page);
    more := made + [page];
  }

  /** In owned pages, page k shares no shape with any other page. */
  lemma PageApartFromOthers(pages: seq<Page>, k: nat)
    requires PagesOwned(pages) && k < |pages|
    ensures pages[k].Valid()
    ensures forall j :: 0 <= j < |pages| && j != k ==> ShapesOf(pages[j].layers) !! ShapesOf(pages[k].layers)
  {
    assert LayerSet(pages[k]) <= LayersOfPages(pages);
  }

  /** Adding a page whose layers and shapes are all new keeps the pages owned. */
  lemma PagesOwnedExtend(pages: seq<Page>, page: Page)
    requires PagesOwned(pages) && page.Valid()
    requires page !in pages
    requires forall j :: 0 <= j < |pages| ==> LayerSet(pages[j]) !! LayerSet(page)
    requires forall j :: 0 <= j < |pages| ==> ShapesOf(pages[j].layers) !! ShapesOf(page.layers)
    ensures PagesOwned(pages + [page])
  {
    var r := pages + [page];
    assert forall j :: 0 <= j < |pages| ==> r[j] == pages[j];
  }
}
