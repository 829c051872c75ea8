/** The handlers of LittleLemonAPI/views.py that change the store: add to
    cart, clear the cart, place an order, partially update an order, and add
    a user to or remove one from the Manager and Delivery crew groups. The
    store is one object whose fields are the tables the handlers read and
    write. Each handler runs after its view's gate (module Authorization) has
    let the request through. */
module Shop {
  import opened Common
  import opened Roles
  import opened Records

  /** A scalar of a JSON request body. A JSON boolean is the number 0 or 1,
      since in Python a bool is an int that equals 0 or 1. */
  datatype Scalar = Null | Int(n: int) | Text(s: string)

  /** Python's truth value of a scalar: null, the number 0 and the empty
      string are the falsy ones. */
  function Truthy(v: Scalar): (b: bool)
    ensures !b <==> v in {Null, Int(0), Text("")}
  {
    match v
    case Null => false
    case Int(n) => n != 0
    case Text(s) => s != ""
  }

  /** Python's `v in [0, 1]`; of those two values only 1 is truthy. */
  function IsZeroOrOne(v: Scalar): (b: bool)
    ensures b ==> v.Int? && (Truthy(v) <==> v == Int(1))
  {
    v.Int? && (v.n == 0 || v.n == 1)
  }

  /** The two fields of a PATCH body that partial_update reads:
      delivery_crew (None when absent or null) and status (None when absent). */
  datatype OrderPatch = OrderPatch(deliveryCrew: Option<int>, status: Option<Scalar>)

  /** The two groups whose rosters are managed through the API. */
  datatype Roster = Managers | Crew
  {
    function Name(): string
    {
      match this
      case Managers => ManagerGroup
      case Crew => DeliveryCrewGroup
    }
  }

  /** The users in group g (group.user_set): stored users only, each of
      them holding g. */
  function Members(users: map<UserId, Account>, g: string): (r: set<UserId>)
    ensures r <= users.Keys
    ensures forall k :: k in r ==> g in users[k].groups
  {
    set k | k in users && g in users[k].groups
  }

  /** Adding user id to group g puts id on g's roster and leaves every other
      roster as it was. */
  lemma JoinKeepsOtherRosters(users: map<UserId, Account>, id: UserId, g: string, h: string)
    requires id in users
    ensures var after := users[id := users[id].(groups := users[id].groups + {g})];
      && Members(after, g) == Members(users, g) + {id}
      && (h != g ==> Members(after, h) == Members(users, h))
  {
  }

  /** Removing user id from group g takes id off g's roster and leaves every
      other roster as it was. */
  lemma LeaveKeepsOtherRosters(users: map<UserId, Account>, id: UserId, g: string, h: string)
    requires id in users
    ensures var after := users[id := users[id].(groups := users[id].groups - {g})];
      && Members(after, g) == Members(users, g) - {id}
      && (h != g ==> Members(after, h) == Members(users, h))
  {
  }

  /** The loop of OrderViewSet.create that makes one order item per cart
      line, in the lines' order. */
  method CopyLines(lines: seq<CartLine>) returns (items: seq<OrderItem>)
    ensures |items| == |lines|
    ensures forall j :: 0 <= j < |lines| ==> items[j] == ItemOf(lines[j])
    ensures ItemsTotal(items) == LinesTotal(lines)
  {
    items := [];
    var i := 0;
    while i < |lines|
      invariant 0 <= i <= |lines|
      invariant |items| == i
      invariant forall j :: 0 <= j < i ==> items[j] == ItemOf(lines[j])
    {
      items := items + [ItemOf(lines[i])];
      i := i + 1;
    }
    CopiedItemsKeepTotal(lines, items);
  }

  class Store {
    var users: map<UserId, Account>
    var menu: map<ItemId, MenuItem>
    var cart: seq<CartLine>
    var orders: map<OrderId, Order>
    var nextOrderId: OrderId

    /** Every cart line is priced as quantity times unit price, every order
        is consistent with its items, and order ids below nextOrderId are the
        only ones in use. */
    ghost predicate Valid()
      reads this
    {
      && PricedCart(cart)
      && ConsistentOrders(orders, nextOrderId)
    }

    constructor (users: map<UserId, Account>, menu: map<ItemId, MenuItem>)
      ensures Valid()
      ensures this.users == users && this.menu == menu
      ensures cart == [] && orders == map[]
    {
      this.users := users;
      this.menu := menu;
      cart := [];
      orders := map[];
      nextOrderId := 1;
    }

    /** CartViewSet.create: one new line for the caller, with the menu price
        of the moment as unit price and a quantity of 1 when none is sent; an
        unknown or missing menu-item id is a 404 that leaves the cart alone. */
    method AddToCart(caller: UserId, menuItemId: Option<ItemId>, quantity: Option<int>) returns (r: Outcome<CartLine>)
      requires Valid()
      modifies this`cart
      ensures Valid()
      ensures menuItemId.None? || menuItemId.value !in menu ==>
        r == Failure(NotFound, "Menu item not found") && cart == old(cart)
      ensures menuItemId.Some? && menuItemId.value in menu ==>
        var unitPrice := menu[menuItemId.value].price;
        var q := if quantity.Some? then quantity.value else 1;
        && r == Success(Created, CartLine(caller, menuItemId.value, q, unitPrice, q * unitPrice))
        && cart == old(cart) + [r.value]
      ensures r.Success? ==> CartOf(cart, caller) == CartOf(old(cart), caller) + [r.value]
      ensures forall v :: v != caller ==> CartOf(cart, v) == CartOf(old(cart), v)
    {
      if menuItemId.None? || menuItemId.value !in menu {
        return Failure(NotFound, "Menu item not found");
      }
      var item := menu[menuItemId.value];
      var q := if quantity.Some? then quantity.value else 1;
      var line := CartLine(caller, menuItemId.value, q, item.price, q * item.price);
      forall v {
        AddGrowsOnlyOwnCart(cart, line, v);
      }
      cart := cart + [line];
      r := Success(Created, line);
    }

    /** CartViewSet.destroy: deletes every line of the caller's and always
        reports success, so clearing twice is the same as clearing once. */
    method ClearCart(caller: UserId) returns (r: Outcome<string>)
      requires Valid()
      modifies this`cart
      ensures Valid()
      ensures r == Success(Ok, "Cart cleared")
      ensures cart == Without(old(cart), caller)
      ensures CartOf(cart, caller) == []
      ensures forall v :: v != caller ==> CartOf(cart, v) == CartOf(old(cart), v)
      ensures Without(cart, caller) == cart
    {
      ClearingFacts(cart, caller);
      ClearIsIdempotent(cart, caller);
      cart := Without(cart, caller);
      r := Success(Ok, "Cart cleared");
    }

    /** OrderViewSet.create: with no line of the caller's, a 400 and nothing
        changes. Otherwise one new order for the caller, undelivered and
        unassigned, dated today, whose total is the sum of the caller's line
        prices and whose items copy those lines one for one and in order; the
        caller's lines are then deleted, every other line and every earlier
        order stays as it was. */
    method CreateOrder(caller: UserId, today: Date) returns (r: Outcome<OrderId>)
      requires Valid()
      modifies this`cart, this`orders, this`nextOrderId
      ensures Valid()
      ensures CartOf(old(cart), caller) == [] ==>
        && r == Failure(BadRequest, "Cart is empty")
        && cart == old(cart) && orders == old(orders) && nextOrderId == old(nextOrderId)
      ensures CartOf(old(cart), caller) != [] ==>
        var lines := CartOf(old(cart), caller);
        && r.Success? && r.status == Created
        && r.value !in old(orders)
        && orders.Keys == old(orders).Keys + {r.value}
        && orders[r.value].user == caller
        && orders[r.value].deliveryCrew == None
        && orders[r.value].status == false
        && orders[r.value].date == today
        && orders[r.value].total == LinesTotal(lines)
        && |orders[r.value].items| == |lines|
        && (forall j :: 0 <= j < |lines| ==> orders[r.value].items[j] == ItemOf(lines[j]))
        && cart == Without(old(cart), caller)
        && multiset(old(cart)) == multiset(lines) + multiset(cart)
      ensures forall k :: k in old(orders) ==> k in orders && orders[k] == old(orders)[k]
      ensures CartOf(cart, caller) == []
      ensures forall v :: v != caller ==> CartOf(cart, v) == CartOf(old(cart), v)
    {
      var lines := CartOf(cart, caller);
      if lines == [] {
        return Failure(BadRequest, "Cart is empty");
      }
      var total := LinesTotal(lines);
      var items := CopyLines(lines);
      var order := Order(caller, None, false, total, today, items);
      assert ConsistentOrder(order) by {
        forall j | 0 <= j < |items| ensures PricedItem(items[j]) {
          assert lines[j] in cart;
        }
      }
      var id := nextOrderId;
      PlacingKeepsOrdersConsistent(orders, id, order);
      ClearingFacts(cart, caller);
      orders := orders[id := order];
      nextOrderId := nextOrderId + 1;
      cart := Without(cart, caller);
      r := Success(Created, id);
    }

    /** OrderViewSet.partial_update. An unknown order id is a 404. A Manager
        may assign any existing user as delivery crew (a falsy id skips
        this, an unknown one is a 404 that saves nothing) and may set status,
        but only from the values 0 and 1: any other value is ignored and the
        answer is still 200. A Delivery crew member who is not a Manager may
        set status only, to the truth value of what was sent, and is refused
        with a 403 when status is absent. Anyone else is refused with a 403.
        Only status and delivery crew ever change. */
    method PartialUpdate(caller: UserId, pk: OrderId, patch: OrderPatch) returns (r: Outcome<string>)
      requires Valid() && caller in users
      modifies this`orders
      ensures Valid()
      ensures orders.Keys == old(orders).Keys
      ensures forall k :: k in old(orders) ==> SameRecord(old(orders)[k], orders[k])
      ensures forall k :: k in old(orders) && k != pk ==> orders[k] == old(orders)[k]
      ensures pk !in old(orders) ==> r == Failure(NotFound, "Order not found")
      ensures pk in old(orders) && IsManager(SignedIn(caller, users[caller])) ==>
        var o := old(orders)[pk];
        var assign := patch.deliveryCrew.Some? && patch.deliveryCrew.value != 0;
        if assign && patch.deliveryCrew.value !in users then
          r == Failure(NotFound, "Delivery crew user not found") && orders[pk] == o
        else
          && r == Success(Ok, "Order updated")
          && orders[pk].deliveryCrew == (if assign then patch.deliveryCrew else o.deliveryCrew)
          && orders[pk].status ==
               (if patch.status.Some? && IsZeroOrOne(patch.status.value) then Truthy(patch.status.value)
                else o.status)
      ensures pk in old(orders) && !IsManager(SignedIn(caller, users[caller]))
                && IsDeliveryCrew(SignedIn(caller, users[caller])) ==>
        var o := old(orders)[pk];
        if patch.status.Some? then
          r == Success(Ok, "Status updated") && orders[pk] == o.(status := Truthy(patch.status.value))
        else
          r == Failure(Forbidden, "Only status can be updated") && orders[pk] == o
      ensures pk in old(orders) && !IsManager(SignedIn(caller, users[caller]))
                && !IsDeliveryCrew(SignedIn(caller, users[caller])) ==>
        r == Failure(Forbidden, "Permission denied") && orders == old(orders)
    {
      if pk !in orders {
        return Failure(NotFound, "Order not found");
      }
      var order := orders[pk];
      var p := SignedIn(caller, users[caller]);
      if IsManager(p) {
        if patch.deliveryCrew.Some? && patch.deliveryCrew.value != 0 {
          if patch.deliveryCrew.value !in users {
            return Failure(NotFound, "Delivery crew user not found");
          }
          order := order.(deliveryCrew := patch.deliveryCrew);
        }
        if patch.status.Some? && IsZeroOrOne(patch.status.value) {
          order := order.(status := Truthy(patch.status.value));
        }
        UpdatingKeepsOrdersConsistent(orders, nextOrderId, pk, order);
        orders := orders[pk := order];
        return Success(Ok, "Order updated");
      } else if IsDeliveryCrew(p) {
        if patch.status.Some? {
          order := order.(status := Truthy(patch.status.value));
          UpdatingKeepsOrdersConsistent(orders, nextOrderId, pk, order);
          orders := orders[pk := order];
          return Success(Ok, "Status updated");
        }
        return Failure(Forbidden, "Only status can be updated");
      }
      return Failure(Forbidden, "Permission denied");
    }

    /** The POST of ManagerGroupView and DeliveryCrewGroupView: puts an
        existing user in the group; a missing or unknown user id is a 404. */
    method AddToRoster(roster: Roster, userId: Option<UserId>) returns (r: Outcome<string>)
      requires Valid()
      modifies this`users
      ensures Valid()
      ensures userId.None? || userId.value !in old(users) ==>
        r == Failure(NotFound, "User not found") && users == old(users)
      ensures userId.Some? && userId.value in old(users) ==>
        var id := userId.value;
        var a := old(users)[id];
        && r == Success(Created, "User added to " + roster.Name() + " group")
        && users == old(users)[id := a.(groups := a.groups + {roster.Name()})]
        && Members(users, roster.Name()) == Members(old(users), roster.Name()) + {id}
        && forall h :: h != roster.Name() ==> Members(users, h) == Members(old(users), h)
    {
      if userId.None? || userId.value !in users {
        return Failure(NotFound, "User not found");
      }
      var id := userId.value;
      var a := users[id];
      forall h {
        JoinKeepsOtherRosters(users, id, roster.Name(), h);
      }
      users := users[id := a.(groups := a.groups + {roster.Name()})];
      r := Success(Created, "User added to " + roster.Name() + " group");
    }

    /** The DELETE of ManagerGroupDetailView and DeliveryCrewGroupDetailView:
        takes an existing user out of the group (a no-op when they were not
        in it); an unknown user id is a 404. */
    method RemoveFromRoster(roster: Roster, userId: UserId) returns (r: Outcome<string>)
      requires Valid()
      modifies this`users
      ensures Valid()
      ensures userId !in old(users) ==>
        r == Failure(NotFound, "User not found") && users == old(users)
      ensures userId in old(users) ==>
        var a := old(users)[userId];
        && r == Success(Ok, "User removed from " + roster.Name() + " group")
        && users == old(users)[userId := a.(groups := a.groups - {roster.Name()})]
        && Members(users, roster.Name()) == Members(old(users), roster.Name()) - {userId}
        && forall h :: h != roster.Name() ==> Members(users, h) == Members(old(users), h)
    {
      if userId !in users {
        return Failure(NotFound, "User not found");
      }
      var a := users[userId];
      forall h {
        LeaveKeepsOtherRosters(users, userId, roster.Name(), h);
      }
      users := users[userId := a.(groups := a.groups - {roster.Name()})];
      r := Success(Ok, "User removed from " + roster.Name() + " group");
    }
  }

  /** A menu item at 1250 bought with quantity 3: the cart line, the order item
      and the order total all come to 3750, and the emptied cart cannot be
      ordered from again. */
  method CheckoutScenario()
  {
    var s := new Store(map[1 := Account({}, false)], map[7 := MenuItem("Lemon dessert", 1250)]);
    var added := s.AddToCart(1, Some(7), Some(3));
    var line := CartLine(1, 7, 3, 1250, 3750);
    assert added == Success(Created, line);
    assert s.cart == [line];
    assert CartOf(s.cart, 1) == [line] by {
      assert s.cart == [] + [line];
      CartOfAppend([], line, 1);
    }
    var placed := s.CreateOrder(1, Date(2024, 5, 1));
    assert placed.Success?;
    var o := s.orders[placed.value];
    assert o.items == [OrderItem(7, 3, 1250, 3750)];
    assert o.total == 3750 by {
      assert [line] == [] + [line];
      TotalOfAppend([], line);
    }
    assert s.cart == [] by {
      assert [line] == [] + [line];
      WithoutAppend([], line, 1);
    }
    var again := s.CreateOrder(1, Date(2024, 5, 1));
    assert again == Failure(BadRequest, "Cart is empty");
  }
}
