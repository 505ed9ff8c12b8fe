/** The Redux slice `app`: the colour theme and whether the sidebar is open. */
module AppSlice {

  datatype Theme = Light | Dark

  /** The theme toggleTheme switches to: the other one. */
  function Toggled(t: Theme): (r: Theme)
    ensures r != t
  {
    if t == Light then Dark else Light
  }

  /** Toggling twice restores the theme. */
  lemma ToggleInvolution(t: Theme)
    ensures Toggled(Toggled(t)) == t
  {
  }

  class AppStore {
    var theme: Theme
    var sidebarOpen: bool

    /** The slice's initial state. */
    constructor ()
      ensures theme == Light && sidebarOpen
    {
      theme := Light;
      sidebarOpen := true;
    }

    /** toggleTheme: switches to the other theme, sidebar untouched. */
    method ToggleTheme()
      modifies this
      ensures theme == Toggled(old(theme)) && theme != old(theme)
      ensures sidebarOpen == old(sidebarOpen)
    {
      theme := if theme == Light then Dark else Light;
    }

    /** setSidebarOpen: sets the flag, theme untouched. */
    method SetSidebarOpen(b: bool)
      modifies this
      ensures sidebarOpen == b
      ensures theme == old(theme)
    {
      sidebarOpen := b;
    }
  }

  /** Toggling twice is the identity on the whole state; setting the
      sidebar flag twice to the same value is setting it once. */
  method ToggleTwiceRestores(store: AppStore, b: bool)
    modifies store
    ensures store.theme == old(store.theme)
    ensures store.sidebarOpen == b
  {
    store.ToggleTheme();
    store.ToggleTheme();
    store.SetSidebarOpen(b);
    store.SetSidebarOpen(b);
  }
}
