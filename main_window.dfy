/**
 * The main window: the three page stacks that show the current view, and
 * the list of open documents with the index of the active one.
 *
 * The root stack switches between the start-up pages and the editing pages;
 * the start-up stack (`stcrim`) holds the start-up, creating and importing
 * pages; the editing stack (`edpr`) holds the editing and previewing pages.
 * A stack is modelled by the name of the child it shows.
 */
module MainWindows {

  import opened Wrappers
  import opened ViewModes
  import opened Documents

  datatype Stack = Root | Stcrim | Edpr

  /** One widget call: make `stack` show its child called `child`. */
  datatype Switch = Switch(stack: Stack, child: string)

  /** The stack switches that show view `m`, in the order they are made. */
  function Route(m: ViewMode): (r: seq<Switch>)
    ensures r == [] <==> m == Preferences
    ensures forall k :: 0 <= k < |r| ==> FromName(r[k].child).Some?
    ensures forall k :: 0 <= k < |r| && r[k].stack == Root ==>
              r[k].child == Name(StartUp) || r[k].child == Name(Editing)
    ensures m != Preferences ==> |r| == 2 && r[1].stack != Root && r[1].child == Name(m)
  {
    match m
    case StartUp => [Switch(Root, Name(m)), Switch(Stcrim, Name(m))]
    case CreatingWork | ImportingWork => [Switch(Root, Name(StartUp)), Switch(Stcrim, Name(m))]
    case Editing | Previewing => [Switch(Root, Name(Editing)), Switch(Edpr, Name(m))]
    case Preferences => []
  }

  /** What `stack` shows after the switches of `route`, having shown `before`. */
  function ShownAfter(route: seq<Switch>, stack: Stack, before: string): (shown: string)
    ensures shown == before || exists k :: 0 <= k < |route| && route[k] == Switch(stack, shown)
  {
    if |route| == 0 then before
    else if route[|route| - 1].stack == stack then route[|route| - 1].child
    else ShownAfter(route[..|route| - 1], stack, before)
  }

  /**
   * The routing table: the start-up view shows its page in the root and
   * start-up stacks; creating and importing keep the root on the start-up
   * pages and show their own page; editing and previewing put the root on
   * the editing pages and show their own page; preferences switches nothing.
   * A stack the view does not use keeps its page.
   */
  lemma RouteTable(m: ViewMode, root: string, stcrim: string, edpr: string)
    ensures m == StartUp ==>
              ShownAfter(Route(m), Root, root) == "StartUp" &&
              ShownAfter(Route(m), Stcrim, stcrim) == "StartUp" &&
              ShownAfter(Route(m), Edpr, edpr) == edpr
    ensures m == CreatingWork || m == ImportingWork ==>
              ShownAfter(Route(m), Root, root) == "StartUp" &&
              ShownAfter(Route(m), Stcrim, stcrim) == Name(m) &&
              ShownAfter(Route(m), Edpr, edpr) == edpr
    ensures m == Editing || m == Previewing ==>
              ShownAfter(Route(m), Root, root) == "Editing" &&
              ShownAfter(Route(m), Stcrim, stcrim) == stcrim &&
              ShownAfter(Route(m), Edpr, edpr) == Name(m)
    ensures m == Preferences ==>
              ShownAfter(Route(m), Root, root) == root &&
              ShownAfter(Route(m), Stcrim, stcrim) == stcrim &&
              ShownAfter(Route(m), Edpr, edpr) == edpr
  {
    var r := Route(m);
    if m != Preferences {
      ShownAfterTwo(r[0], r[1], Root, root);
      ShownAfterTwo(r[0], r[1], Stcrim, stcrim);
      ShownAfterTwo(r[0], r[1], Edpr, edpr);
      assert r == [r[0], r[1]];
    }
  }

  /** After two switches, a stack shows the later switch's child, else the earlier's, else its own. */
  lemma ShownAfterTwo(first: Switch, second: Switch, stack: Stack, before: string)
    ensures ShownAfter([first, second], stack, before) ==
            if second.stack == stack then second.child
            else if first.stack == stack then first.child
            else before
  {
    assert [first, second][..1] == [first];
    assert [first][..0] == [];
  }

  class Window {
    var documents: seq<Document>
    var activeDocumentIndex: nat
    var rootChild: string
    var stcrimChild: string
    var edprChild: string

    /**
     * A window with no documents and index 0; the stacks show whatever
     * page the interface description makes visible first.
     */
    constructor (rootChild: string, stcrimChild: string, edprChild: string)
      ensures documents == [] && activeDocumentIndex == 0
      ensures this.rootChild == rootChild && this.stcrimChild == stcrimChild
      ensures this.edprChild == edprChild
    {
      documents := [];
      activeDocumentIndex := 0;
      this.rootChild := rootChild;
      this.stcrimChild := stcrimChild;
      this.edprChild := edprChild;
    }

    /** Shows view `m`: each stack ends up as `Route(m)` leaves it. */
    method UpdateView(m: ViewMode)
      modifies this`rootChild, this`stcrimChild, this`edprChild
      ensures rootChild == ShownAfter(Route(m), Root, old(rootChild))
      ensures stcrimChild == ShownAfter(Route(m), Stcrim, old(stcrimChild))
      ensures edprChild == ShownAfter(Route(m), Edpr, old(edprChild))
    {
      RouteTable(m, rootChild, stcrimChild, edprChild);
      var viewName := Name(m);
      match m
      case StartUp =>
        rootChild := viewName;
        stcrimChild := viewName;
      case CreatingWork | ImportingWork =>
        rootChild := Name(StartUp);
        stcrimChild := viewName;
      case Editing | Previewing =>
        rootChild := Name(Editing);
        edprChild := viewName;
      case Preferences =>
    }

    /** Appends a document; the active index is not touched. */
    method NewDocuments(document: Document)
      modifies this`documents
      ensures documents == old(documents) + [document]
    {
      documents := documents + [document];
    }

    /** Sets the active index, without checking it against the document list. */
    method SetActiveDocumentIndex(index: nat)
      modifies this`activeDocumentIndex
      ensures activeDocumentIndex == index
    {
      activeDocumentIndex := index;
    }

    /**
     * The active document. The index is used to index the list, which
     * panics when it is out of range (as it is in a new window, which has
     * no documents): that outcome is `None`.
     */
    function GetActiveDocument(): (d: Option<Document>)
      reads this
      ensures d.None? <==> activeDocumentIndex >= |documents|
      ensures d.Some? ==> d.value in documents && d.value == documents[activeDocumentIndex]
    {
      if activeDocumentIndex < |documents| then Some(documents[activeDocumentIndex]) else None
    }
  }
}
