/**
 * The site header (src/components/layout/Navbar.tsx): the cart badge drawn
 * on both the desktop and the mobile cart link, the scrolled-style flag and
 * the menu and search toggles.
 */
module Navbar {
  import opened Wrappers
  import opened Types

  /** `items.reduce((total, item) => total + item.quantity, 0)`, folded from the left. */
  function TotalQuantity(items: seq<CartItem>): int
  {
    if items == [] then 0 else TotalQuantity(items[..|items| - 1]) + items[|items| - 1].quantity
  }

  /** The total of two lists of lines is the sum of their totals. */
  lemma {:induction false} TotalQuantityAppend(a: seq<CartItem>, b: seq<CartItem>)
    ensures TotalQuantity(a + b) == TotalQuantity(a) + TotalQuantity(b)
    decreases |b|
  {
    if b == [] {
      assert a + b == a;
    } else {
      assert (a + b)[..|a + b| - 1] == a + b[..|b| - 1];
      TotalQuantityAppend(a, b[..|b| - 1]);
    }
  }

  /** With every line holding at least one unit, the total counts at least one per line. */
  lemma {:induction false} TotalQuantityAtLeastLines(items: seq<CartItem>)
    requires forall i :: 0 <= i < |items| ==> items[i].quantity >= 1
    ensures TotalQuantity(items) >= |items|
  {
    if items != [] {
      TotalQuantityAtLeastLines(items[..|items| - 1]);
    }
  }

  /** The cart badge: drawn only for a non-empty cart, showing the number of units in it. */
  function Badge(items: seq<CartItem>): (badge: Option<int>)
    ensures badge.Some? <==> |items| > 0
    ensures badge.Some? ==> badge.value == TotalQuantity(items)
  {
    if |items| > 0 then Some(TotalQuantity(items)) else None
  }

  /** Adding a line to a non-empty cart raises the badge by that line's quantity. */
  lemma BadgeAfterNewLine(items: seq<CartItem>, item: CartItem)
    requires |items| > 0
    ensures Badge(items + [item]) == Some(Badge(items).value + item.quantity)
  {
    TotalQuantityAppend(items, [item]);
    assert [item][..0] == [];
  }

  class NavbarState {
    var isOpen: bool
    var isScrolled: bool
    var isSearchOpen: bool

    constructor ()
      ensures !isOpen && !isScrolled && !isSearchOpen
    {
      isOpen, isScrolled, isSearchOpen := false, false, false;
    }

    /** The scroll listener: the solid style is on exactly past 50 pixels. */
    method HandleScroll(scrollY: real)
      modifies this`isScrolled
      ensures isScrolled <==> scrollY > 50.0
    {
      if scrollY > 50.0 {
        isScrolled := true;
      } else {
        isScrolled := false;
      }
    }

    /** Any route change closes the mobile menu. */
    method OnLocationChange()
      modifies this`isOpen
      ensures !isOpen
    {
      isOpen := false;
    }

    method ToggleSearch()
      modifies this`isSearchOpen
      ensures isSearchOpen == !old(isSearchOpen)
    {
      isSearchOpen := !isSearchOpen;
    }

    method ToggleMenu()
      modifies this`isOpen
      ensures isOpen == !old(isOpen)
    {
      isOpen := !isOpen;
    }
  }

  /** Pressing either button twice restores its flag; a route change then closes the menu whatever it was. */
  method ToggleTwiceScenario(nav: NavbarState)
    modifies nav
  {
    var open, search := nav.isOpen, nav.isSearchOpen;
    nav.ToggleMenu();
    nav.ToggleMenu();
    nav.ToggleSearch();
    nav.ToggleSearch();
    assert nav.isOpen == open && nav.isSearchOpen == search;
    nav.ToggleMenu();
    nav.OnLocationChange();
    assert !nav.isOpen;
  }
}
