/**
 * The shared header: the role-dependent menu, the role label, and the
 * logout and navigation handlers.
 */
module Header {
  import opened Wrappers
  import opened Auth

  datatype MenuItem = MenuItem(title: string, route: string)

  const AdminMenuItems: seq<MenuItem> := [
    MenuItem("Dashboard", "/dashboard"),
    MenuItem("Bookings Management", "/bookings"),
    MenuItem("Track Packages", "/tracking"),
    MenuItem("Pickup Points", "/pickup-points"),
    MenuItem("Bus Assignment", "/bus-assignment"),
    MenuItem("User Logs", "/user-logs"),
    MenuItem("Settings", "/settings")
  ]

  const CustomerMenuItems: seq<MenuItem> := [
    MenuItem("Home", "/dashboard"),
    MenuItem("New Booking", "/new-booking"),
    MenuItem("My Bookings", "/bookings"),
    MenuItem("Track Package", "/tracking"),
    MenuItem("Incoming Packages", "/confirmations"),
    MenuItem("History", "/history"),
    MenuItem("Profile", "/profile")
  ]

  /** `menuItems`: the admin list for an admin, the customer list for anyone else. */
  function MenuItems(user: Option<User>): (items: seq<MenuItem>)
    ensures IsAdmin(user) ==> items == AdminMenuItems
    ensures !IsAdmin(user) ==> items == CustomerMenuItems
  {
    if IsAdmin(user) then AdminMenuItems else CustomerMenuItems
  }

  /** Whether some item of the menu leads to `route`. */
  predicate Offers(items: seq<MenuItem>, route: string) {
    exists i :: 0 <= i < |items| && items[i].route == route
  }

  /** Only customers are offered /new-booking and /history; only admins the four management screens. */
  lemma MenuRoutesByRole(route: string)
    ensures Offers(CustomerMenuItems, route) && !Offers(AdminMenuItems, route) <==>
      route == "/new-booking" || route == "/confirmations" || route == "/history" || route == "/profile"
    ensures Offers(AdminMenuItems, route) && !Offers(CustomerMenuItems, route) <==>
      route == "/pickup-points" || route == "/bus-assignment" || route == "/user-logs" || route == "/settings"
  {
    if Offers(CustomerMenuItems, route) {
      var i :| 0 <= i < |CustomerMenuItems| && CustomerMenuItems[i].route == route;
    }
    if Offers(AdminMenuItems, route) {
      var i :| 0 <= i < |AdminMenuItems| && AdminMenuItems[i].route == route;
    }
    var c, a := CustomerMenuItems, AdminMenuItems;
    if route == "/dashboard" { assert c[0].route == route && a[0].route == route; }
    if route == "/bookings" { assert c[2].route == route && a[1].route == route; }
    if route == "/tracking" { assert c[3].route == route && a[2].route == route; }
    if route == "/new-booking" { assert c[1].route == route; }
    if route == "/confirmations" { assert c[4].route == route; }
    if route == "/history" { assert c[5].route == route; }
    if route == "/profile" { assert c[6].route == route; }
    if route == "/pickup-points" { assert a[3].route == route; }
    if route == "/bus-assignment" { assert a[4].route == route; }
    if route == "/user-logs" { assert a[5].route == route; }
    if route == "/settings" { assert a[6].route == route; }
  }

  /** Whoever is signed in, the menu has seven items and starts at the dashboard. */
  lemma MenuShape(user: Option<User>)
    ensures |MenuItems(user)| == 7 && MenuItems(user)[0].route == "/dashboard"
  {
  }

  /** The label under the user's name. */
  function RoleLabel(user: Option<User>): (text: string)
    ensures text == "Administrator" <==> IsAdmin(user)
    ensures text != "Administrator" ==> text == "Customer"
  {
    if IsAdmin(user) then "Administrator" else "Customer"
  }

  /** The header's state. */
  class HeaderState {
    var menuVisible: bool
    /** The routes the header has navigated to, in order. */
    ghost var navigations: seq<string>

    constructor ()
      ensures !menuVisible && navigations == []
    {
      menuVisible := false;
      navigations := [];
    }

    method OpenMenu()
      modifies this
      ensures menuVisible && navigations == old(navigations)
    {
      menuVisible := true;
    }

    /** `handleLogout`: hide the menu, sign out, go back to the login screen. */
    method HandleLogout(auth: AuthContext)
      modifies this, auth
      ensures !menuVisible && auth.user == None && auth.isLoading == old(auth.isLoading)
      ensures navigations == old(navigations) + ["/"]
    {
      menuVisible := false;
      auth.Logout();
      navigations := navigations + ["/"];
    }

    /** `handleNavigation`: hide the menu and go to the route. */
    method HandleNavigation(route: string)
      modifies this
      ensures !menuVisible && navigations == old(navigations) + [route]
    {
      menuVisible := false;
      navigations := navigations + [route];
    }

    /** Pressing the i-th item of the signed-in user's menu. */
    method PressMenuItem(user: Option<User>, i: nat)
      requires i < |MenuItems(user)|
      modifies this
      ensures !menuVisible && navigations == old(navigations) + [MenuItems(user)[i].route]
      ensures Offers(MenuItems(user), navigations[|navigations| - 1])
    {
      HandleNavigation(MenuItems(user)[i].route);
    }
  }
}
