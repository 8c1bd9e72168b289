/**
 * The store's navigation: the current view and the history stack that
 * `setView` pushes onto and `goBack` pops.
 */
module Navigation {
  import opened Types

  datatype Nav = Nav(view: ViewState, history: seq<ViewState>)

  /**
   * `setView`: a different view is entered and the old one pushed; asking for the
   * view already shown changes nothing. (Views are compared by their JSON
   * rendering, which for these records is structural equality.)
   */
  function SetView(n: Nav, newView: ViewState): (r: Nav)
    ensures r.view == newView
    ensures r.history == if n.view == newView then n.history else n.history + [n.view]
  {
    if n.view != newView then Nav(newView, n.history + [n.view]) else n
  }

  /** `goBack`: pop the last view, or go HOME when there is nothing to pop. */
  function GoBack(n: Nav): (r: Nav)
    ensures |n.history| == 0 ==> r == Nav(Home, [])
    ensures |n.history| > 0 ==>
      r.view == n.history[|n.history| - 1] && r.history + [r.view] == n.history
  {
    if |n.history| > 0 then Nav(n.history[|n.history| - 1], n.history[..|n.history| - 1])
    else Nav(Home, n.history)
  }

  /** Going to a different view and coming back restores both the view and the history. */
  lemma GoBackUndoesSetView(n: Nav, v: ViewState)
    requires n.view != v
    ensures GoBack(SetView(n, v)) == n
  {
    assert (n.history + [n.view])[..|n.history|] == n.history;
  }
}
