/** The navigation bar's mobile-menu flag (components/navbar.py). */
module NavBar {
  class NavBarState {
    var mobileOpen: bool

    /** The menu starts closed. */
    constructor()
      ensures !mobileOpen
    {
      mobileOpen := false;
    }

    /** `toggle` flips the flag, so two toggles restore it. */
    method Toggle()
      modifies this
      ensures mobileOpen == !old(mobileOpen)
    {
      mobileOpen := !mobileOpen;
    }

    /** `close` always leaves the menu closed, whatever it was, so closing twice is closing once. */
    method Close()
      modifies this
      ensures !mobileOpen
    {
      mobileOpen := false;
    }
  }
}
