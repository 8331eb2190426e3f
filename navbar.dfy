/**
 * The navigation bar: the scroll threshold that swaps the two headers,
 * the route predicates that highlight links, and the dropdown menu's
 * open flag with its delayed close on hover exit.
 */
module Navbar {

  const ScrollThreshold: real := 100.0

  /** The compact header replaces the full one once the page is scrolled past 100 pixels. */
  predicate IsScrolled(scrollY: real) {
    scrollY > ScrollThreshold
  }

  datatype Header = FullHeader | CompactHeader

  /** The one header that is rendered. */
  function HeaderShown(scrolled: bool): (h: Header)
    ensures h == CompactHeader <==> scrolled
    ensures h == FullHeader <==> !scrolled
  {
    if scrolled then CompactHeader else FullHeader
  }

  /** The dropdown's entries, in menu order. */
  const DropdownPaths: seq<string> := ["/stocks", "/crypto", "/forex", "/fd-nfd"]

  /** `items.some(item => pathname === item.path)`, as a scan of the list. */
  function SomeItemIs(items: seq<string>, pathname: string): (b: bool)
    ensures b <==> pathname in items
  {
    if |items| == 0 then false
    else items[0] == pathname || SomeItemIs(items[1..], pathname)
  }

  predicate IsDropdownActive(pathname: string) {
    SomeItemIs(DropdownPaths, pathname)
  }

  /** The dropdown counts as active on exactly its four routes. */
  lemma DropdownActiveIff(pathname: string)
    ensures IsDropdownActive(pathname) <==>
      pathname == "/stocks" || pathname == "/crypto" || pathname == "/forex" || pathname == "/fd-nfd"
  {
  }

  /** The Home link is highlighted on the home route and on any dropdown route. */
  predicate HomeHighlighted(pathname: string) {
    pathname == "/" || IsDropdownActive(pathname)
  }

  /** Home is highlighted exactly on `/` and the four dropdown routes, and not, for instance, on `/register`. */
  lemma HomeHighlightedRoutes(pathname: string)
    ensures HomeHighlighted(pathname) <==> pathname == "/" || pathname in DropdownPaths
    ensures !HomeHighlighted("/register") && !HomeHighlighted("/download")
  {
    assert "/register" != "/" && "/download" != "/";
    assert "/register" !in DropdownPaths by {
      assert "/register"[1] == 'r';
      assert forall k :: 0 <= k < |DropdownPaths| ==> DropdownPaths[k][1] != 'r';
    }
    assert "/download" !in DropdownPaths by {
      assert "/download"[1] == 'd';
      assert forall k :: 0 <= k < |DropdownPaths| ==> DropdownPaths[k][1] != 'd';
    }
  }

  predicate ItemHighlighted(item: nat, pathname: string)
    requires item < |DropdownPaths|
  {
    DropdownPaths[item] == pathname
  }

  /** The four routes differ, so at most one entry is highlighted, and one is exactly when the dropdown is active. */
  lemma AtMostOneItemHighlighted(pathname: string)
    ensures forall i, j :: 0 <= i < j < |DropdownPaths| ==> !(ItemHighlighted(i, pathname) && ItemHighlighted(j, pathname))
    ensures IsDropdownActive(pathname) <==> exists i :: 0 <= i < |DropdownPaths| && ItemHighlighted(i, pathname)
  {
    forall i, j | 0 <= i < j < |DropdownPaths|
      ensures DropdownPaths[i] != DropdownPaths[j]
    {
      assert DropdownPaths[i][2] != DropdownPaths[j][2];
    }
    if IsDropdownActive(pathname) {
      var i :| 0 <= i < |DropdownPaths| && DropdownPaths[i] == pathname;
      assert ItemHighlighted(i, pathname);
    }
  }

  /** Whether a key press activates a focused entry. */
  predicate ActivatesItem(key: string) {
    key == "Enter" || key == " "
  }

  class NavbarState {
    var isOpen: bool
    var isScrolled: bool
    var pathname: string
    /** Whether the pointer is inside the desktop dropdown area. */
    var hovered: bool
    /** Whether the close timer held in the timer slot is still pending. */
    var refPending: bool
    /** Close timers still pending whose handle was overwritten in the slot, so no one can clear them. */
    var strays: nat
    /** Every route handed to the router, in order. */
    var navigations: seq<string>

    /** While the pointer is inside the dropdown area, no close is pending in the slot. */
    ghost predicate Valid()
      reads this
    {
      hovered ==> !refPending
    }

    constructor (path: string)
      ensures Valid()
      ensures !isOpen && !isScrolled && pathname == path && !hovered && !refPending && strays == 0 && navigations == []
    {
      isOpen := false;
      isScrolled := false;
      pathname := path;
      hovered := false;
      refPending := false;
      strays := 0;
      navigations := [];
    }

    /** Setting the open flag; a change re-runs the effect, whose cleanup clears the timer in the slot. */
    method SetOpen(v: bool)
      requires Valid()
      modifies this
      ensures Valid()
      ensures isOpen == v
      ensures refPending == (old(refPending) && v == old(isOpen))
      ensures strays == old(strays) && hovered == old(hovered)
      ensures isScrolled == old(isScrolled) && pathname == old(pathname) && navigations == old(navigations)
    {
      if v != isOpen {
        refPending := false;
      }
      isOpen := v;
    }

    method Navigate(path: string)
      modifies this
      ensures pathname == path && navigations == old(navigations) + [path]
      ensures isOpen == old(isOpen) && isScrolled == old(isScrolled) && hovered == old(hovered)
      ensures refPending == old(refPending) && strays == old(strays)
    {
      navigations := navigations + [path];
      pathname := path;
    }

    /** The window scrolled to `scrollY`. */
    method Scroll(scrollY: real)
      requires Valid()
      modifies this
      ensures Valid()
      ensures isScrolled == IsScrolled(scrollY)
      ensures isOpen == old(isOpen) && pathname == old(pathname) && hovered == old(hovered)
      ensures refPending == old(refPending) && strays == old(strays) && navigations == old(navigations)
    {
      isScrolled := IsScrolled(scrollY);
    }

    /** Hover: a pending close in the slot is cancelled and the menu opens. */
    method MouseEnter()
      requires Valid()
      modifies this
      ensures Valid()
      ensures isOpen && hovered && !refPending && strays == old(strays)
      ensures isScrolled == old(isScrolled) && pathname == old(pathname) && navigations == old(navigations)
    {
      hovered := true;
      refPending := false;
      SetOpen(true);
    }

    /**
     * Hover exit: a close is scheduled in the slot.  A close still pending
     * there loses its handle; that happens only if the pointer had not
     * entered since the last exit.
     */
    method MouseLeave()
      requires Valid()
      modifies this
      ensures Valid()
      ensures refPending && !hovered && isOpen == old(isOpen)
      ensures strays == if old(refPending) then old(strays) + 1 else old(strays)
      ensures old(hovered) ==> strays == old(strays)
      ensures isScrolled == old(isScrolled) && pathname == old(pathname) && navigations == old(navigations)
    {
      if refPending {
        strays := strays + 1;
      }
      refPending := true;
      hovered := false;
    }

    /** The slot's timer fires, 200 ms after the exit that scheduled it: the menu closes. */
    method FireRef()
      requires Valid() && refPending
      modifies this
      ensures Valid()
      ensures !isOpen && !refPending && strays == old(strays) && hovered == old(hovered)
      ensures isScrolled == old(isScrolled) && pathname == old(pathname) && navigations == old(navigations)
    {
      refPending := false;
      SetOpen(false);
    }

    /** A timer whose handle was lost fires: it closes the menu like any other. */
    method FireStray()
      requires Valid() && strays > 0
      modifies this
      ensures Valid()
      ensures !isOpen && strays == old(strays) - 1 && hovered == old(hovered)
      ensures isScrolled == old(isScrolled) && pathname == old(pathname) && navigations == old(navigations)
    {
      strays := strays - 1;
      SetOpen(false);
    }

    /** The mobile dropdown button flips the menu. */
    method MobileToggle()
      requires Valid()
      modifies this
      ensures Valid()
      ensures isOpen == !old(isOpen) && !refPending && strays == old(strays) && hovered == old(hovered)
      ensures isScrolled == old(isScrolled) && pathname == old(pathname) && navigations == old(navigations)
    {
      SetOpen(!isOpen);
    }

    /** A mouse press anywhere in the document; the outside-click listener exists only while the menu is open. */
    method MouseDown(insideDesktop: bool, insideMobile: bool)
      requires Valid()
      modifies this
      ensures Valid()
      ensures isOpen == (old(isOpen) && (insideDesktop || insideMobile))
      ensures (insideDesktop || insideMobile || !old(isOpen)) ==> refPending == old(refPending)
      ensures strays == old(strays) && hovered == old(hovered)
      ensures isScrolled == old(isScrolled) && pathname == old(pathname) && navigations == old(navigations)
    {
      if isOpen && !insideDesktop && !insideMobile {
        SetOpen(false);
      }
    }

    /** A key press on the entry for `path`: Enter or Space follow it and close the menu; other keys do nothing. */
    method KeyDown(key: string, path: string)
      requires Valid()
      modifies this
      ensures Valid()
      ensures ActivatesItem(key) ==> !isOpen && pathname == path && navigations == old(navigations) + [path]
      ensures !ActivatesItem(key) ==>
        (isOpen == old(isOpen) && pathname == old(pathname) && navigations == old(navigations) && refPending == old(refPending))
      ensures strays == old(strays) && hovered == old(hovered) && isScrolled == old(isScrolled)
    {
      if ActivatesItem(key) {
        Navigate(path);
        SetOpen(false);
      }
    }

    /** A click on a link: its handler closes the menu and the link follows its route. */
    method LinkClick(path: string)
      requires Valid()
      modifies this
      ensures Valid()
      ensures !isOpen && pathname == path && navigations == old(navigations) + [path]
      ensures strays == old(strays) && hovered == old(hovered) && isScrolled == old(isScrolled)
    {
      SetOpen(false);
      Navigate(path);
    }

    /** The Home link. */
    method HomeClick()
      requires Valid()
      modifies this
      ensures Valid()
      ensures !isOpen && pathname == "/" && navigations == old(navigations) + ["/"]
      ensures strays == old(strays) && hovered == old(hovered) && isScrolled == old(isScrolled)
    {
      LinkClick("/");
    }

    /** A dropdown entry. */
    method ItemClick(item: nat)
      requires Valid() && item < |DropdownPaths|
      modifies this
      ensures Valid()
      ensures !isOpen && ItemHighlighted(item, pathname) && navigations == old(navigations) + [DropdownPaths[item]]
      ensures strays == old(strays) && hovered == old(hovered) && isScrolled == old(isScrolled)
    {
      LinkClick(DropdownPaths[item]);
    }

    /** The Register and Download entries of the mobile menu navigate and then close it. */
    method MobileButton(path: string)
      requires Valid() && (path == "/register" || path == "/download")
      modifies this
      ensures Valid()
      ensures !isOpen && pathname == path && navigations == old(navigations) + [path]
      ensures strays == old(strays) && hovered == old(hovered) && isScrolled == old(isScrolled)
    {
      Navigate(path);
      SetOpen(false);
    }

    /** The Register and Download buttons of the desktop bar only navigate; the menu is left as it was. */
    method DesktopButton(path: string)
      requires Valid() && (path == "/register" || path == "/download")
      modifies this
      ensures Valid()
      ensures pathname == path && navigations == old(navigations) + [path]
      ensures isOpen == old(isOpen) && refPending == old(refPending)
      ensures strays == old(strays) && hovered == old(hovered) && isScrolled == old(isScrolled)
    {
      Navigate(path);
    }
  }
}
