/** The records of the store (menu items, cart lines, orders and their items)
    and the queries over them that LittleLemonAPI/views.py runs: a user's cart
    lines, the cart left after they are deleted, the price sums, and the
    orders a caller may see. Money is an integer count of the smallest
    currency unit. */
module Records {
  import opened Common
  import opened Roles

  type ItemId = int
  type OrderId = int

  /** The calendar day an order is placed on, supplied by the caller. */
  datatype Date = Date(year: int, month: int, day: int)

  datatype MenuItem = MenuItem(title: string, price: int)

  /** One add-to-cart: the unit price is the menu price when the line was
      made, and the line price is quantity times unit price. */
  datatype CartLine = CartLine(user: UserId, menuItem: ItemId, quantity: int, unitPrice: int, price: int)

  datatype OrderItem = OrderItem(menuItem: ItemId, quantity: int, unitPrice: int, price: int)

  /** status false: not yet delivered; true: delivered. */
  datatype Order = Order(
    user: UserId,
    deliveryCrew: Option<UserId>,
    status: bool,
    total: int,
    date: Date,
    items: seq<OrderItem>)

  predicate PricedLine(l: CartLine)
  {
    l.price == l.quantity * l.unitPrice
  }

  predicate PricedItem(i: OrderItem)
  {
    i.price == i.quantity * i.unitPrice
  }

  /** The order item created from a cart line. */
  function ItemOf(l: CartLine): (i: OrderItem)
    ensures PricedLine(l) ==> PricedItem(i)
  {
    OrderItem(l.menuItem, l.quantity, l.unitPrice, l.price)
  }

  /** The lines owned by user u (Cart.objects.filter(user=u)), kept in the
      order they were added. */
  function CartOf(cart: seq<CartLine>, u: UserId): (r: seq<CartLine>)
    ensures |r| <= |cart|
    ensures forall l :: l in r <==> l in cart && l.user == u
  {
    if cart == [] then []
    else
      var last := cart[|cart| - 1];
      CartOf(cart[..|cart| - 1], u) + (if last.user == u then [last] else [])
  }

  /** The store's lines once user u's lines are deleted. */
  function Without(cart: seq<CartLine>, u: UserId): (r: seq<CartLine>)
    ensures |r| <= |cart|
    ensures forall l :: l in r <==> l in cart && l.user != u
  {
    if cart == [] then []
    else
      var last := cart[|cart| - 1];
      Without(cart[..|cart| - 1], u) + (if last.user != u then [last] else [])
  }

  /** The sum of the lines' prices; no line priced below zero makes it
      negative. */
  function LinesTotal(lines: seq<CartLine>): (r: int)
    ensures (forall i :: 0 <= i < |lines| ==> lines[i].price >= 0) ==> r >= 0
  {
    if lines == [] then 0 else LinesTotal(lines[..|lines| - 1]) + lines[|lines| - 1].price
  }

  function ItemsTotal(items: seq<OrderItem>): int
  {
    if items == [] then 0 else ItemsTotal(items[..|items| - 1]) + items[|items| - 1].price
  }

  /** What every stored order keeps: its total is the sum of its items'
      prices, and each item is priced as quantity times unit price. */
  predicate ConsistentOrder(o: Order)
  {
    && o.total == ItemsTotal(o.items)
    && forall j :: 0 <= j < |o.items| ==> PricedItem(o.items[j])
  }

  predicate PricedCart(cart: seq<CartLine>)
  {
    forall l :: l in cart ==> PricedLine(l)
  }

  /** Every stored order is consistent, and its id is below next, the id the
      next order will get. */
  predicate ConsistentOrders(orders: map<OrderId, Order>, next: OrderId)
  {
    forall k :: k in orders ==> k < next && ConsistentOrder(orders[k])
  }

  lemma PlacingKeepsOrdersConsistent(orders: map<OrderId, Order>, next: OrderId, o: Order)
    requires ConsistentOrders(orders, next) && ConsistentOrder(o)
    ensures next !in orders
    ensures ConsistentOrders(orders[next := o], next + 1)
  {
  }

  /** Rewriting an order's mutable fields keeps the orders consistent. */
  lemma UpdatingKeepsOrdersConsistent(orders: map<OrderId, Order>, next: OrderId, k: OrderId, o: Order)
    requires ConsistentOrders(orders, next) && k in orders
    requires o.total == orders[k].total && o.items == orders[k].items
    ensures ConsistentOrders(orders[k := o], next)
  {
  }

  /** What deleting u's lines does to the store's lines: u has none left,
      every other user keeps theirs, nothing else is lost or duplicated, and
      the remaining lines stay priced. */
  lemma ClearingFacts(cart: seq<CartLine>, u: UserId)
    ensures CartOf(Without(cart, u), u) == []
    ensures forall v :: v != u ==> CartOf(Without(cart, u), v) == CartOf(cart, v)
    ensures multiset(cart) == multiset(CartOf(cart, u)) + multiset(Without(cart, u))
    ensures PricedCart(cart) ==> PricedCart(Without(cart, u))
  {
    ClearedCartIsEmpty(cart, u);
    forall v | v != u {
      ClearKeepsOtherCarts(cart, u, v);
    }
    CartPartition(cart, u);
  }

  /** The fields of an order that never change once it is placed. */
  predicate SameRecord(o: Order, o': Order)
  {
    o.user == o'.user && o.total == o'.total && o.date == o'.date && o.items == o'.items
  }

  /** The orders a signed-in caller sees (OrderViewSet.get_queryset): a
      Manager sees every order, else a Delivery crew member the orders
      assigned to them, else anyone the orders they placed. The staff flag
      plays no part. */
  predicate Visible(o: Order, caller: UserId, account: Account)
  {
    var p := SignedIn(caller, account);
    if IsManager(p) then true
    else if IsDeliveryCrew(p) then o.deliveryCrew == Some(caller)
    else o.user == caller
  }

  function VisibleOrders(orders: map<OrderId, Order>, caller: UserId, account: Account): (r: map<OrderId, Order>)
    ensures forall k :: k in r ==> k in orders && r[k] == orders[k]
    ensures ManagerGroup in account.groups ==> r == orders
  {
    map k | k in orders && Visible(orders[k], caller, account) :: orders[k]
  }

  // ---------------------------------------------------------------------
  // Cart queries
  // ---------------------------------------------------------------------

  lemma CartOfAppend(cart: seq<CartLine>, l: CartLine, u: UserId)
    ensures CartOf(cart + [l], u) == CartOf(cart, u) + (if l.user == u then [l] else [])
  {
    assert (cart + [l])[..|cart|] == cart;
  }

  lemma WithoutAppend(cart: seq<CartLine>, l: CartLine, u: UserId)
    ensures Without(cart + [l], u) == Without(cart, u) + (if l.user != u then [l] else [])
  {
    assert (cart + [l])[..|cart|] == cart;
  }

  /** Adding a line for u grows u's cart by that line and leaves every other
      user's cart as it was. */
  lemma AddGrowsOnlyOwnCart(cart: seq<CartLine>, l: CartLine, v: UserId)
    ensures v == l.user ==> CartOf(cart + [l], v) == CartOf(cart, v) + [l]
    ensures v != l.user ==> CartOf(cart + [l], v) == CartOf(cart, v)
  {
    CartOfAppend(cart, l, v);
  }

  /** Every line of the store is either u's or stays behind when u's lines
      are deleted, and no line is lost or duplicated. */
  lemma {:induction false} CartPartition(cart: seq<CartLine>, u: UserId)
    ensures multiset(cart) == multiset(CartOf(cart, u)) + multiset(Without(cart, u))
  {
    if cart != [] {
      var init, last := cart[..|cart| - 1], cart[|cart| - 1];
      assert cart == init + [last];
      CartPartition(init, u);
    }
  }

  /** After u's lines are deleted u has none left. */
  lemma {:induction false} ClearedCartIsEmpty(cart: seq<CartLine>, u: UserId)
    ensures CartOf(Without(cart, u), u) == []
  {
    if cart != [] {
      var init, last := cart[..|cart| - 1], cart[|cart| - 1];
      ClearedCartIsEmpty(init, u);
      if last.user == u {
        assert Without(cart, u) == Without(init, u);
      } else {
        assert Without(cart, u) == Without(init, u) + [last];
        CartOfAppend(Without(init, u), last, u);
      }
    }
  }

  /** Deleting u's lines leaves every other user's cart exactly as it was. */
  lemma {:induction false} ClearKeepsOtherCarts(cart: seq<CartLine>, u: UserId, v: UserId)
    requires v != u
    ensures CartOf(Without(cart, u), v) == CartOf(cart, v)
  {
    if cart != [] {
      var init, last := cart[..|cart| - 1], cart[|cart| - 1];
      ClearKeepsOtherCarts(init, u, v);
      if last.user == u {
        assert Without(cart, u) == Without(init, u);
      } else {
        assert Without(cart, u) == Without(init, u) + [last];
        CartOfAppend(Without(init, u), last, v);
      }
    }
  }

  /** Deleting u's lines a second time changes nothing. */
  lemma {:induction false} ClearIsIdempotent(cart: seq<CartLine>, u: UserId)
    ensures Without(Without(cart, u), u) == Without(cart, u)
  {
    if cart != [] {
      var init, last := cart[..|cart| - 1], cart[|cart| - 1];
      ClearIsIdempotent(init, u);
      if last.user == u {
        assert Without(cart, u) == Without(init, u);
      } else {
        assert Without(cart, u) == Without(init, u) + [last];
        WithoutAppend(Without(init, u), last, u);
      }
    }
  }

  // ---------------------------------------------------------------------
  // Totals
  // ---------------------------------------------------------------------

  /** Items copied one for one from cart lines add up to the lines' total,
      which is what makes a new order's total the sum of its items. */
  lemma {:induction false} CopiedItemsKeepTotal(lines: seq<CartLine>, items: seq<OrderItem>)
    requires |items| == |lines|
    requires forall j :: 0 <= j < |lines| ==> items[j] == ItemOf(lines[j])
    ensures ItemsTotal(items) == LinesTotal(lines)
  {
    if lines != [] {
      CopiedItemsKeepTotal(lines[..|lines| - 1], items[..|items| - 1]);
    }
  }

  lemma {:induction false} TotalOfAppend(lines: seq<CartLine>, l: CartLine)
    ensures LinesTotal(lines + [l]) == LinesTotal(lines) + l.price
  {
    assert (lines + [l])[..|lines|] == lines;
  }

  // ---------------------------------------------------------------------
  // Order scoping
  // ---------------------------------------------------------------------

  /** One order O placed by customer c and assigned to crew member d: the
      Manager m, d and c all see it, and a customer x who did not place it
      does not. */
  lemma ScopedListing(orders: map<OrderId, Order>, k: OrderId,
                      m: UserId, am: Account, d: UserId, ad: Account,
                      c: UserId, ac: Account, x: UserId, ax: Account)
    requires k in orders && orders[k].user == c && orders[k].deliveryCrew == Some(d)
    requires ManagerGroup in am.groups
    requires ManagerGroup !in ad.groups && DeliveryCrewGroup in ad.groups
    requires ac.groups == {} && ax.groups == {} && x != c
    ensures k in VisibleOrders(orders, m, am)
    ensures k in VisibleOrders(orders, d, ad)
    ensures k in VisibleOrders(orders, c, ac)
    ensures k !in VisibleOrders(orders, x, ax)
  {
  }

  /** A Delivery crew member (not a Manager) sees exactly the orders assigned
      to them; an order they placed themselves is hidden from them unless it
      is also assigned to them. */
  lemma CrewSeesAssignedOnly(orders: map<OrderId, Order>, d: UserId, ad: Account, k: OrderId)
    requires ManagerGroup !in ad.groups && DeliveryCrewGroup in ad.groups
    requires k in orders
    ensures k in VisibleOrders(orders, d, ad) <==> orders[k].deliveryCrew == Some(d)
  {
  }

  /** Anyone in neither group, staff or not, sees exactly the orders they
      placed. */
  lemma OthersSeeOwnOnly(orders: map<OrderId, Order>, u: UserId, a: Account, k: OrderId)
    requires ManagerGroup !in a.groups && DeliveryCrewGroup !in a.groups
    requires k in orders
    ensures k in VisibleOrders(orders, u, a) <==> orders[k].user == u
  {
  }
}
