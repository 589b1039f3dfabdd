/**
 * The application's view bookkeeping: the tool in use, the current view,
 * and the last "home" view (start-up or editing) that the back button of
 * the creating and importing pages returns to.
 */
module Applications {

  import opened ViewModes
  import opened MainWindows

  /**
   * The drawing tools, cut down to the controller (select and drag), the one
   * a new application starts with; the other tools are not part of this model.
   */
  datatype ToolKind = Controller

  datatype CurrentTool = Tool(kind: ToolKind)

  /** Views that are remembered as the place to go back to. */
  predicate IsHome(m: ViewMode) {
    m == StartUp || m == Editing
  }

  /**
   * The (current, last home) pair after switching to `m` from `view`, whose
   * last home view was `last`: a home view being left becomes the last home
   * view, any other view leaves it as it was.
   */
  function Updated(view: ViewMode, last: ViewMode, m: ViewMode): (r: (ViewMode, ViewMode))
    ensures r.0 == m
    ensures IsHome(view) ==> r.1 == view
    ensures !IsHome(view) ==> r.1 == last
  {
    match view
    case StartUp | Editing => (m, view)
    case _ => (m, last)
  }

  /** Switching views keeps the last view a home view. */
  lemma UpdatedKeepsHome(view: ViewMode, last: ViewMode, m: ViewMode)
    requires IsHome(last)
    ensures IsHome(Updated(view, last, m).1)
  {
  }

  /**
   * Leaving a home view for a page that is not one, then pressing back,
   * returns to the home view, and the history is as it was after leaving.
   */
  lemma {:induction false} BackReturnsHome(view: ViewMode, last: ViewMode, m: ViewMode)
    requires IsHome(view) && !IsHome(m)
    ensures var (v1, l1) := Updated(view, last, m);
            Updated(v1, l1, l1) == (view, view)
  {
    var (v1, l1) := Updated(view, last, m);
    assert l1 == view;
    assert !IsHome(v1);
  }

  /** From start-up, opening the creating page and pressing back shows start-up again. */
  lemma CreatingWorkBackToStartUp()
    ensures var (v1, l1) := Updated(StartUp, StartUp, CreatingWork);
            Updated(v1, l1, l1).0 == StartUp
  {
    BackReturnsHome(StartUp, StartUp, CreatingWork);
  }

  class Application {
    var currentTool: CurrentTool
    var viewMode: ViewMode
    var lastViewMode: ViewMode
    const window: Window

    /** The last view is always one the back button may return to. */
    ghost predicate Valid()
      reads this
    {
      IsHome(lastViewMode)
    }

    /** A new application: the controller tool, in the start-up view, with start-up as last view. */
    constructor (window: Window)
      ensures Valid()
      ensures currentTool == Tool(Controller)
      ensures viewMode == StartUp && lastViewMode == StartUp
      ensures this.window == window
    {
      currentTool := Tool(Controller);
      viewMode := StartUp;
      lastViewMode := StartUp;
      this.window := window;
    }

    /** Switches to view `m`, recording a home view being left, and shows `m` in the window. */
    method UpdateView(m: ViewMode)
      requires Valid()
      modifies this`viewMode, this`lastViewMode
      modifies window`rootChild, window`stcrimChild, window`edprChild
      ensures Valid()
      ensures (viewMode, lastViewMode) == Updated(old(viewMode), old(lastViewMode), m)
      ensures window.rootChild == ShownAfter(Route(m), Root, old(window.rootChild))
      ensures window.stcrimChild == ShownAfter(Route(m), Stcrim, old(window.stcrimChild))
      ensures window.edprChild == ShownAfter(Route(m), Edpr, old(window.edprChild))
    {
      match viewMode {
        case StartUp | Editing =>
          lastViewMode := viewMode;
        case _ =>
      }
      viewMode := m;
      window.UpdateView(m);
    }

    /** The back button of the creating and importing pages: return to the last home view. */
    method Back()
      requires Valid()
      modifies this`viewMode, this`lastViewMode
      modifies window`rootChild, window`stcrimChild, window`edprChild
      ensures Valid()
      ensures (viewMode, lastViewMode) == Updated(old(viewMode), old(lastViewMode), old(lastViewMode))
      ensures viewMode == old(lastViewMode)
      ensures IsHome(viewMode)
      ensures window.rootChild == ShownAfter(Route(old(lastViewMode)), Root, old(window.rootChild))
      ensures window.stcrimChild == ShownAfter(Route(old(lastViewMode)), Stcrim, old(window.stcrimChild))
      ensures window.edprChild == ShownAfter(Route(old(lastViewMode)), Edpr, old(window.edprChild))
    {
      var mode := lastViewMode;
      UpdateView(mode);
    }
  }
}
