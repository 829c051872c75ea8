/** The gates in front of the views of LittleLemonAPI/views.py: each view
    names a list of permission classes (fixed, or chosen per request by
    get_permissions), and a request goes on to the handler only when every
    class in the list grants it. */
module Authorization {
  import opened Roles

  datatype HttpMethod = Get | Post | Put | Patch | Delete | Head | Options

  /** The permission classes a view can name. */
  datatype Permission = Authenticated | Manager | DeliveryCrew | Customer | AdminOrManager

  datatype Endpoint =
    | Categories          // /category, /category/{id}
    | MenuItems           // /menu-items, /menu-items/{id}
    | CartLines           // /cart/menu-items
    | Orders              // /orders, /orders/{id}
    | ManagerRoster       // /groups/manager/users[/{userId}]
    | DeliveryCrewRoster  // /groups/delivery-crew/users[/{userId}]

  function HasPermission(perm: Permission, p: Principal): bool
  {
    match perm
    case Authenticated => IsAuthenticated(p)
    case Manager => IsManager(p)
    case DeliveryCrew => IsDeliveryCrew(p)
    case Customer => IsCustomer(p)
    case AdminOrManager => IsAdminOrManager(p)
  }

  /** Every class of the list grants the request; an empty list grants every
      request. */
  predicate Grants(perms: seq<Permission>, p: Principal)
  {
    forall i :: 0 <= i < |perms| ==> HasPermission(perms[i], p)
  }

  /** Every list a view names has at most two classes. */
  lemma GrantsShortList(perms: seq<Permission>, p: Principal)
    requires |perms| <= 2
    ensures Grants(perms, p) <==>
      (|perms| < 1 || HasPermission(perms[0], p)) && (|perms| < 2 || HasPermission(perms[1], p))
  {
  }

  predicate IsWrite(m: HttpMethod)
  {
    m.Post? || m.Put? || m.Patch? || m.Delete?
  }

  /** OrderViewSet.get_permissions, as written: the Manager group is looked
      at before the Delivery crew group, and a PATCH from a caller in neither
      group falls through to the final IsAuthenticated. Every branch names
      exactly one class, and the Manager class is named for PUT and DELETE
      only. */
  function OrderPermissions(m: HttpMethod, p: Principal): (r: seq<Permission>)
    ensures |r| == 1
    ensures r == [Manager] <==> m == Put || m == Delete
    ensures m == Patch && !IsManager(p) && !IsDeliveryCrew(p) ==> r == [Authenticated]
  {
    match m
    case Put => [Manager]
    case Delete => [Manager]
    case Get =>
      if IsManager(p) then [Authenticated]
      else if IsDeliveryCrew(p) then [DeliveryCrew]
      else [Customer]
    case Patch =>
      if IsManager(p) then [Authenticated]
      else if IsDeliveryCrew(p) then [DeliveryCrew]
      else [Authenticated]
    case Post =>
      if IsManager(p) then [Authenticated]
      else [Customer]
    case _ => [Authenticated]
  }

  /** The permission list each endpoint applies, as the views write it. No
      list is longer than two classes, and only menu-item reads get the empty
      list that lets every request through. */
  function EndpointPermissions(e: Endpoint, m: HttpMethod, p: Principal): (r: seq<Permission>)
    ensures |r| <= 2
    ensures r == [] <==> e == MenuItems && !IsWrite(m)
  {
    match e
    case Categories => [AdminOrManager]
    case MenuItems => if IsWrite(m) then [AdminOrManager] else []
    case CartLines => [Authenticated, Customer]
    case Orders => OrderPermissions(m, p)
    case ManagerRoster => [Authenticated, AdminOrManager]
    case DeliveryCrewRoster => [Authenticated, AdminOrManager]
  }

  /** The order endpoints' decision as written. */
  function OrderAllowedAsWritten(m: HttpMethod, p: Principal): (b: bool)
    ensures IsManager(p) ==> b
    ensures (m == Put || m == Delete) ==> (b <==> IsManager(p))
    ensures m == Get && !IsManager(p) ==> (b <==> IsDeliveryCrew(p) || IsCustomer(p))
    ensures m == Post && !IsManager(p) ==> (b <==> IsCustomer(p))
    ensures m == Patch && !IsManager(p) ==> (b <==> IsDeliveryCrew(p) || IsAuthenticated(p))
    ensures (m == Head || m == Options) ==> (b <==> IsAuthenticated(p))
  {
    GrantsShortList(OrderPermissions(m, p), p);
    Grants(OrderPermissions(m, p), p)
  }

  /** The GET and POST gates of the order endpoints name IsCustomer alone, and
      an anonymous visitor, who belongs to no group, passes it. */
  lemma AnonymousPassesOrderGate()
    ensures OrderAllowedAsWritten(Get, Anonymous)
    ensures OrderAllowedAsWritten(Post, Anonymous)
  {
  }

  /** The order endpoints' decision with the sign-in that every other
      non-public endpoint demands (as CartViewSet pairs IsAuthenticated with
      IsCustomer). For a signed-in caller it agrees with the decision as
      written. */
  function OrderAllowed(m: HttpMethod, p: Principal): (b: bool)
    ensures b ==> IsAuthenticated(p)
    ensures IsAuthenticated(p) ==> (b <==> OrderAllowedAsWritten(m, p))
  {
    IsAuthenticated(p) && Grants(OrderPermissions(m, p), p)
  }

  /** Whether a request on an endpoint reaches its handler. */
  function Permitted(e: Endpoint, m: HttpMethod, p: Principal): bool
  {
    if e == Orders then OrderAllowed(m, p)
    else Grants(EndpointPermissions(e, m, p), p)
  }

  /** Only menu-item reads are open to anonymous visitors. */
  lemma SignInRequired(e: Endpoint, m: HttpMethod, p: Principal)
    requires Permitted(e, m, p)
    requires !(e == MenuItems && !IsWrite(m))
    ensures IsAuthenticated(p)
  {
    GrantsShortList(EndpointPermissions(e, m, p), p);
  }

  lemma MenuItemReadsAreOpen(m: HttpMethod, p: Principal)
    requires !IsWrite(m)
    ensures Permitted(MenuItems, m, p)
  {
  }

  lemma CatalogWritesNeedAdminOrManager(e: Endpoint, m: HttpMethod, p: Principal)
    requires e == Categories || (e == MenuItems && IsWrite(m))
    ensures Permitted(e, m, p) <==> p.IsStaff() || IsManager(p)
  {
    GrantsShortList(EndpointPermissions(e, m, p), p);
  }

  /** The cart is for customers only: signed in and in no group. */
  lemma CartIsForCustomersOnly(m: HttpMethod, p: Principal)
    ensures Permitted(CartLines, m, p) <==> IsAuthenticated(p) && p.Groups() == {}
  {
    GrantsShortList(EndpointPermissions(CartLines, m, p), p);
  }

  /** Both rosters are managed by staff or Managers only. */
  lemma RostersNeedAdminOrManager(e: Endpoint, m: HttpMethod, p: Principal)
    requires e == ManagerRoster || e == DeliveryCrewRoster
    ensures Permitted(e, m, p) <==> IsAuthenticated(p) && (p.IsStaff() || IsManager(p))
  {
    GrantsShortList(EndpointPermissions(e, m, p), p);
  }

  /** A Manager who also belongs to the Delivery crew group is decided for
      exactly as a Manager is, on every endpoint and method; a Manager gets
      through every gate except the customers-only cart. */
  lemma ManagerTakesPrecedence(e: Endpoint, m: HttpMethod, id: UserId, groups: set<string>, isStaff: bool)
    requires ManagerGroup in groups
    ensures var both := SignedIn(id, Account(groups + {DeliveryCrewGroup}, isStaff));
      var manager := SignedIn(id, Account(groups - {DeliveryCrewGroup}, isStaff));
      && Permitted(e, m, both) == Permitted(e, m, manager)
      && (e != CartLines <==> Permitted(e, m, manager))
  {
    var both := SignedIn(id, Account(groups + {DeliveryCrewGroup}, isStaff));
    var manager := SignedIn(id, Account(groups - {DeliveryCrewGroup}, isStaff));
    assert ManagerGroup != DeliveryCrewGroup by { assert ManagerGroup[0] != DeliveryCrewGroup[0]; }
    assert IsManager(both) && IsManager(manager);
    GrantsShortList(EndpointPermissions(e, m, both), both);
    GrantsShortList(EndpointPermissions(e, m, manager), manager);
  }
}
