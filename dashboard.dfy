/**
 * The owner dashboard assembled on a successful login: each order of the
 * owner's restaurant becomes a display entry whose line items are resolved
 * against the menu and whose restaurant fields come from looking the order's
 * own restaurant up again. `Promise.all` over `map` is modelled as an
 * order-preserving map over a sequence: every slot is kept, and one rejected
 * promise rejects the whole result.
 */
module Dashboard {
  import opened Wrappers
  import opened Store

  datatype Restaurant = Restaurant(id: Id, ownerId: Id, restaurantName: string, restaurantAddress: string)

  datatype MenuItem = MenuItem(name: string, price: int, restaurantId: Id)

  /** One stored line of an order: the menu item it refers to and how many. */
  datatype OrderItem = OrderItem(item: Id, quantity: int)

  /** An order's creation time, kept as the two locale-formatted strings the runtime renders it as. */
  datatype Timestamp = Timestamp(localeDate: string, localeTime: string)

  datatype Order = Order(
    id: Id,
    restaurantId: Id,
    orderItems: seq<OrderItem>,
    orderStatus: string,
    orderTotal: int,
    expectedPickUpTime: string,
    tableRequests: string,
    createdDate: Timestamp)

  /** A resolved line item as the dashboard shows it. */
  datatype LineView = LineView(menuItemName: string, quantity: int)

  /** One order as the dashboard shows it; a None slot in `orderItems` is an `undefined` entry. */
  datatype DashboardEntry = DashboardEntry(
    orderId: Id,
    orderItems: seq<Option<LineView>>,
    canteenName: string,
    restaurantAddress: string,
    orderStatus: string,
    totalPrice: int,
    status: string,
    expectedPickupTime: string,
    description: string,
    date: string,
    time: string)

  /** The restaurant, menu-item and order collections as one login request reads them. */
  datatype Snapshot = Snapshot(restaurants: seq<Restaurant>, menuItems: map<Id, MenuItem>, orders: seq<Order>)

  /** The position of the document `Restaurant.findById(id)` returns. */
  function FindRestaurantById(restaurants: seq<Restaurant>, id: Id): (r: Option<nat>)
    ensures r.Some? ==> r.value < |restaurants| && restaurants[r.value].id == id
    ensures r.Some? ==> forall j :: 0 <= j < r.value ==> restaurants[j].id != id
    ensures r.None? <==> forall j :: 0 <= j < |restaurants| ==> restaurants[j].id != id
  {
    FirstWhere(restaurants, (x: Restaurant) => x.id == id)
  }

  /** The position of the document `Restaurant.findOne({ ownerId })` returns. */
  function FindRestaurantOfOwner(restaurants: seq<Restaurant>, ownerId: Id): (r: Option<nat>)
    ensures r.Some? ==> r.value < |restaurants| && restaurants[r.value].ownerId == ownerId
    ensures r.Some? ==> forall j :: 0 <= j < r.value ==> restaurants[j].ownerId != ownerId
    ensures r.None? <==> forall j :: 0 <= j < |restaurants| ==> restaurants[j].ownerId != ownerId
  {
    FirstWhere(restaurants, (x: Restaurant) => x.ownerId == ownerId)
  }

  /** `Order.find({ restaurantId })`: the orders of one restaurant, in store order. */
  function OrdersOf(orders: seq<Order>, restaurantId: Id): (r: seq<Order>)
    ensures |r| <= |orders|
    ensures forall k :: 0 <= k < |r| ==> r[k].restaurantId == restaurantId
    ensures forall o :: o in orders && o.restaurantId == restaurantId ==> o in r
    ensures forall o :: o in r ==> o in orders
  {
    if orders == [] then []
    else if orders[0].restaurantId == restaurantId then [orders[0]] + OrdersOf(orders[1..], restaurantId)
    else OrdersOf(orders[1..], restaurantId)
  }

  /**
   * `OrdersOf` is an order-preserving filter: it distributes over
   * concatenation and keeps a single order exactly when it belongs to the
   * restaurant.
   */
  lemma {:induction false} OrdersOfIsFilter(a: seq<Order>, b: seq<Order>, restaurantId: Id)
    ensures OrdersOf(a + b, restaurantId) == OrdersOf(a, restaurantId) + OrdersOf(b, restaurantId)
    ensures |a| == 1 ==> OrdersOf(a, restaurantId) == if a[0].restaurantId == restaurantId then [a[0]] else []
  {
    if a == [] {
      assert a + b == b;
    } else {
      assert (a + b)[0] == a[0];
      assert (a + b)[1..] == a[1..] + b;
      OrdersOfIsFilter(a[1..], b, restaurantId);
    }
  }

  /** One line item: the menu item's name and the stored quantity, or an empty slot when the menu item is missing. */
  function LineItem(orderItem: OrderItem, menu: map<Id, MenuItem>): (r: Option<LineView>)
    ensures r.None? <==> orderItem.item !in menu
    ensures r.Some? ==> r.value.menuItemName == menu[orderItem.item].name && r.value.quantity == orderItem.quantity
  {
    if orderItem.item in menu then Some(LineView(menu[orderItem.item].name, orderItem.quantity)) else None
  }

  /** The line items of one order, slot for slot. */
  function LineItems(items: seq<OrderItem>, menu: map<Id, MenuItem>): (r: seq<Option<LineView>>)
    ensures |r| == |items|
  {
    if items == [] then [] else [LineItem(items[0], menu)] + LineItems(items[1..], menu)
  }

  /** Slot k of the resolved line items is line item k of the order. */
  lemma {:induction false} LineItemsAt(items: seq<OrderItem>, menu: map<Id, MenuItem>, k: nat)
    requires k < |items|
    ensures LineItems(items, menu)[k] == LineItem(items[k], menu)
  {
    if k > 0 {
      LineItemsAt(items[1..], menu, k - 1);
    }
  }

  /**
   * The resolved line items keep the order's length; a slot is empty exactly
   * when its menu item is missing, and otherwise carries that item's name and
   * the stored quantity.
   */
  lemma {:induction false} LineItemsSpec(items: seq<OrderItem>, menu: map<Id, MenuItem>)
    ensures |LineItems(items, menu)| == |items|
    ensures forall k :: 0 <= k < |items| ==>
      (LineItems(items, menu)[k].None? <==> items[k].item !in menu)
    ensures forall k :: 0 <= k < |items| && items[k].item in menu ==>
      LineItems(items, menu)[k] == Some(LineView(menu[items[k].item].name, items[k].quantity))
  {
    forall k | 0 <= k < |items|
      ensures LineItems(items, menu)[k] == LineItem(items[k], menu)
    {
      LineItemsAt(items, menu, k);
    }
  }

  /**
   * The entry for one order, or None when the order's own restaurant cannot be
   * found again (reading its name would throw).
   */
  function OrderView(o: Order, menu: map<Id, MenuItem>, restaurants: seq<Restaurant>): (r: Option<DashboardEntry>)
    ensures r.None? <==> FindRestaurantById(restaurants, o.restaurantId).None?
    ensures r.Some? ==>
      var e := r.value;
      var place := restaurants[FindRestaurantById(restaurants, o.restaurantId).value];
      && e.orderId == o.id
      && e.orderItems == LineItems(o.orderItems, menu)
      && |e.orderItems| == |o.orderItems|
      && e.canteenName == place.restaurantName
      && e.restaurantAddress == place.restaurantAddress
      && e.orderStatus == o.orderStatus && e.status == o.orderStatus
      && e.totalPrice == o.orderTotal
      && e.expectedPickupTime == o.expectedPickUpTime
      && e.description == o.tableRequests
      && e.date == o.createdDate.localeDate && e.time == o.createdDate.localeTime
  {
    match FindRestaurantById(restaurants, o.restaurantId)
    case None => None
    case Some(i) =>
      var place := restaurants[i];
      Some(DashboardEntry(
        o.id,
        LineItems(o.orderItems, menu),
        place.restaurantName,
        place.restaurantAddress,
        o.orderStatus,
        o.orderTotal,
        o.orderStatus,
        o.expectedPickUpTime,
        o.tableRequests,
        o.createdDate.localeDate,
        o.createdDate.localeTime))
  }

  /** Every order's restaurant can be found again. */
  predicate AllResolvable(orders: seq<Order>, restaurants: seq<Restaurant>)
  {
    forall k :: 0 <= k < |orders| ==> FindRestaurantById(restaurants, orders[k].restaurantId).Some?
  }

  /**
   * The dashboard: one entry per order in store order, or None when some
   * order's restaurant is missing and the whole `Promise.all` rejects.
   */
  function BuildDashboard(orders: seq<Order>, menu: map<Id, MenuItem>, restaurants: seq<Restaurant>)
    : (r: Option<seq<DashboardEntry>>)
    ensures r.Some? <==> AllResolvable(orders, restaurants)
    ensures r.Some? ==> |r.value| == |orders|
  {
    if orders == [] then Some([])
    else
      match OrderView(orders[0], menu, restaurants)
      case None => None
      case Some(e) =>
        match BuildDashboard(orders[1..], menu, restaurants)
        case None =>
          assert !AllResolvable(orders[1..], restaurants);
          None
        case Some(es) => Some([e] + es)
  }

  /** Entry k of the dashboard is the view of order k: the store's order is kept. */
  lemma {:induction false} DashboardAt(orders: seq<Order>, menu: map<Id, MenuItem>, restaurants: seq<Restaurant>, k: nat)
    requires AllResolvable(orders, restaurants)
    requires k < |orders|
    ensures OrderView(orders[k], menu, restaurants).Some?
    ensures BuildDashboard(orders, menu, restaurants).value[k] == OrderView(orders[k], menu, restaurants).value
  {
    if k > 0 {
      assert AllResolvable(orders[1..], restaurants) by {
        forall j | 0 <= j < |orders[1..]|
          ensures FindRestaurantById(restaurants, orders[1..][j].restaurantId).Some?
        {
          assert orders[1..][j] == orders[j + 1];
        }
      }
      DashboardAt(orders[1..], menu, restaurants, k - 1);
    }
  }

  /**
   * Deleting menu item m before the dashboard is built empties exactly the
   * slots that refer to m; every other slot and every other field of the
   * entry is unchanged.
   */
  lemma DeletedMenuItemEmptiesOnlyItsSlots(o: Order, menu: map<Id, MenuItem>, restaurants: seq<Restaurant>, m: Id)
    requires OrderView(o, menu, restaurants).Some?
    ensures OrderView(o, menu - {m}, restaurants).Some?
    ensures
      var before := OrderView(o, menu, restaurants).value;
      var after := OrderView(o, menu - {m}, restaurants).value;
      && after == before.(orderItems := after.orderItems)
      && |after.orderItems| == |before.orderItems|
      && forall k :: 0 <= k < |o.orderItems| ==>
           after.orderItems[k] == if o.orderItems[k].item == m then None else before.orderItems[k]
  {
    var after := OrderView(o, menu - {m}, restaurants).value;
    var before := OrderView(o, menu, restaurants).value;
    forall k | 0 <= k < |o.orderItems|
      ensures after.orderItems[k] == if o.orderItems[k].item == m then None else before.orderItems[k]
    {
      LineItemsAt(o.orderItems, menu, k);
      LineItemsAt(o.orderItems, menu - {m}, k);
    }
  }
}
