/** The top bar (`Navbar.jsx`): the cart badge count, the sections each role
    sees, the avatar initial and greeting, and the open/close state of the
    cart drawer and the three menus. */
module Navbar {
  import opened Wrappers
  import opened Store
  import Cart

  /** `currentUser && currentUser.cartDetails && currentUser.cartDetails.reduce(...)`:
      absent when there is no user or no cart, otherwise the drawer's fold. */
  function BadgeCount(currentUser: Option<User>): (r: Option<int>)
    ensures r.None? <==> currentUser.None? || currentUser.value.cartDetails.None?
    ensures r.Some? ==> r.value == Cart.TotalQuantity(currentUser.value.cartDetails.value)
    ensures r.Some? ==> r.value == Cart.Sum(Cart.Quantity, currentUser.value.cartDetails.value)
    ensures currentUser.Some? && currentUser.value.cartDetails == Some([]) ==> r == Some(0)
  {
    match currentUser
    case None => None
    case Some(user) =>
      match user.cartDetails
      case None => None
      case Some(items) => Some(Cart.Reduce(Cart.Quantity, items, 0))
  }

  /** The right-hand sections of the bar that are rendered. */
  datatype Sections = Sections(login: bool, cartBadge: bool, accountMenu: bool)

  function VisibleSections(currentRole: Role): (s: Sections)
    ensures s.login <==> currentRole == NoRole
    ensures s.cartBadge <==> IsCustomer(currentRole)
    ensures s.accountMenu <==> IsCustomer(currentRole)
    ensures !(s.login && s.cartBadge)
    ensures currentRole != NoRole && !IsCustomer(currentRole) ==> !s.login && !s.cartBadge && !s.accountMenu
  {
    var customer := currentRole == Named(CUSTOMER);
    Sections(login := currentRole == NoRole, cartBadge := customer, accountMenu := customer)
  }

  /** `String(name).charAt(0)`: the first character, or `""` for an empty name. */
  function Initial(name: string): (r: string)
    ensures r <= name
    ensures |r| == if name == [] then 0 else 1
  {
    if name == [] then "" else name[..1]
  }

  /** `name.split(' ')[0]`: the name up to its first space. */
  function FirstName(name: string): (r: string)
    ensures r <= name
    ensures ' ' !in r
    ensures |r| < |name| ==> name[|r|] == ' '
  {
    if name == [] || name[0] == ' ' then "" else [name[0]] + FirstName(name[1..])
  }

  /** A name without a space is shown whole; otherwise the greeting stops
      just before the first space. */
  lemma FirstNameIsFirstWord(name: string)
    ensures ' ' !in name ==> FirstName(name) == name
    ensures ' ' in name ==> |FirstName(name)| < |name| && FirstName(name) + name[|FirstName(name)|..] == name
  {
  }

  /** An element the menus anchor to (`event.currentTarget`). */
  type Element = nat

  /** The bar's local state: whether the cart drawer is open, and the anchor
      of each menu (`null` when closed). */
  class NavbarMenus {
    var isCartOpen: bool
    var anchorNav: Option<Element>
    var anchorUser: Option<Element>
    var anchorSign: Option<Element>

    constructor ()
      ensures !isCartOpen && anchorNav == None && anchorUser == None && anchorSign == None
    {
      isCartOpen := false;
      anchorNav, anchorUser, anchorSign := None, None, None;
    }

    /** `open = Boolean(anchorElUser)`. */
    predicate UserMenuOpen()
      reads this
    {
      anchorUser.Some?
    }

    /** `openSign = Boolean(anchorElSign)`. */
    predicate SigninMenuOpen()
      reads this
    {
      anchorSign.Some?
    }

    method OpenCart()
      modifies this
      ensures isCartOpen
      ensures anchorNav == old(anchorNav) && anchorUser == old(anchorUser) && anchorSign == old(anchorSign)
    {
      isCartOpen := true;
    }

    /** Closing the drawer, also what the drawer's own `setIsCartOpen(false)` calls do. */
    method CloseCart()
      modifies this
      ensures !isCartOpen
      ensures anchorNav == old(anchorNav) && anchorUser == old(anchorUser) && anchorSign == old(anchorSign)
    {
      isCartOpen := false;
    }

    method OpenNavMenu(target: Element)
      modifies this
      ensures anchorNav == Some(target)
      ensures isCartOpen == old(isCartOpen) && anchorUser == old(anchorUser) && anchorSign == old(anchorSign)
    {
      anchorNav := Some(target);
    }

    method CloseNavMenu()
      modifies this
      ensures anchorNav == None
      ensures isCartOpen == old(isCartOpen) && anchorUser == old(anchorUser) && anchorSign == old(anchorSign)
    {
      anchorNav := None;
    }

    method OpenUserMenu(target: Element)
      modifies this
      ensures anchorUser == Some(target) && UserMenuOpen()
      ensures isCartOpen == old(isCartOpen) && anchorNav == old(anchorNav) && anchorSign == old(anchorSign)
    {
      anchorUser := Some(target);
    }

    method CloseUserMenu()
      modifies this
      ensures anchorUser == None && !UserMenuOpen()
      ensures isCartOpen == old(isCartOpen) && anchorNav == old(anchorNav) && anchorSign == old(anchorSign)
    {
      anchorUser := None;
    }

    method OpenSigninMenu(target: Element)
      modifies this
      ensures anchorSign == Some(target) && SigninMenuOpen()
      ensures isCartOpen == old(isCartOpen) && anchorNav == old(anchorNav) && anchorUser == old(anchorUser)
    {
      anchorSign := Some(target);
    }

    method CloseSigninMenu()
      modifies this
      ensures anchorSign == None && !SigninMenuOpen()
      ensures isCartOpen == old(isCartOpen) && anchorNav == old(anchorNav) && anchorUser == old(anchorUser)
    {
      anchorSign := None;
    }
  }
}
