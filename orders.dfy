/** controllers/orders.js: listing, viewing and placing orders, with the ownership rule for customers. */
module OrdersController {
  import opened Wrappers
  import opened SchemaTypes
  import opened UserModel
  import opened OrderModel
  import opened Requests
  import opened ResponseUtils
  import opened Collections

  function IdOf(o: Order): (id: ObjectId) {
    o.id
  }

  /** findById over orders; an undefined id finds nothing. */
  function IndexOfId(orders: seq<Order>, id: Option<ObjectId>): (r: Option<nat>)
    ensures r.Some? ==> r.value < |orders| && Some(orders[r.value].id) == id
    ensures r.None? <==> forall o :: o in orders ==> Some(o.id) != id
  {
    if id.None? then None else FindIndex(orders, (o: Order) => o.id == id.value)
  }

  /** Whether a user may see an order: an admin sees every order, a customer only their own. */
  predicate Visible(o: Order, user: User) {
    user.role == Admin || o.customerId == user.id
  }

  /** Every stored order satisfies the schema. */
  ghost predicate AllWellFormed(s: seq<Order>) {
    forall i :: 0 <= i < |s| ==> WellFormed(s[i])
  }

  lemma AllWellFormedAppend(s: seq<Order>, x: Order)
    requires AllWellFormed(s) && WellFormed(x)
    ensures AllWellFormed(s + [x])
  {
  }

  /** `Order.find({customerId})`: the orders owned by `customerId`, in collection order. */
  function OrdersOf(orders: seq<Order>, customerId: ObjectId): (r: seq<Order>)
    ensures forall o :: o in r <==> o in orders && o.customerId == customerId
    ensures forall o :: multiset(r)[o] == if o.customerId == customerId then multiset(orders)[o] else 0
  {
    Filter(orders, (o: Order) => o.customerId == customerId)
  }

  /** The customer listing keeps collection order: listing a concatenation lists each part in turn. */
  lemma OrdersOfAppend(a: seq<Order>, b: seq<Order>, customerId: ObjectId)
    ensures OrdersOf(a + b, customerId) == OrdersOf(a, customerId) + OrdersOf(b, customerId)
  {
    FilterAppend(a, b, (o: Order) => o.customerId == customerId);
  }

  /** getAllOrders: 200 as JSON; an admin gets every order, a customer exactly their own, in collection order. */
  predicate GetAllOrdersSpec(orders: seq<Order>, currentUser: User, r: Response) {
    r == SendJson(OrderList(if currentUser.role == Admin then orders else OrdersOf(orders, currentUser.id)), 200)
  }

  /**
   * viewOrder: 404 for an unknown id; an admin sees any order; a customer sees their own order
   * and gets 404, never 403, for an order of someone else.
   */
  ghost predicate ViewOrderSpec(orders: seq<Order>, orderId: Option<ObjectId>, currentUser: User, r: Response) {
    && ((forall o :: o in orders ==> Some(o.id) != orderId) ==> r == NotFound())
    && (forall o :: o in orders && Some(o.id) == orderId ==>
          r == if Visible(o, currentUser) then SendJson(OrderDoc(o), 200) else NotFound())
  }

  /**
   * addOrder, from `before` to `after`: the new order belongs to the caller whatever the payload
   * says and its items are the payload's; 201 with the order appended when the save succeeds,
   * 400 and nothing stored otherwise.
   */
  predicate AddOrderSpec(before: seq<Order>, after: seq<Order>, orderData: Body, currentUser: User, newId: ObjectId, r: Response) {
    match Save(newId, Some(currentUser.id), orderData.items)
    case Success(o) =>
      && o.customerId == currentUser.id
      && after == before + [o]
      && r == CreatedResource(OrderDoc(o))
    case Failure(e) => r == BadRequest(Some(Invalid(e))) && after == before
  }

  class OrderStore {
    /** The order collection in natural order. */
    var orders: seq<Order>

    ghost predicate Valid()
      reads this
    {
      Unique(orders, IdOf) && AllWellFormed(orders)
    }

    constructor (initial: seq<Order>)
      requires Unique(initial, IdOf) && AllWellFormed(initial)
      ensures Valid() && orders == initial
    {
      orders := initial;
    }

    method GetAllOrders(currentUser: User) returns (r: Response)
      ensures GetAllOrdersSpec(orders, currentUser, r)
      ensures r.status == 200 && r.headers == map["Content-Type" := "application/json"]
      ensures r.body.Json? && r.body.payload.OrderList?
      ensures forall o :: o in r.body.payload.orders <==> o in orders && Visible(o, currentUser)
    {
      match currentUser.role
      case Admin =>
        r := SendJson(OrderList(orders), 200);
      case Customer =>
        r := SendJson(OrderList(OrdersOf(orders, currentUser.id)), 200);
    }

    method ViewOrder(orderId: Option<ObjectId>, currentUser: User) returns (r: Response)
      requires Valid()
      ensures ViewOrderSpec(orders, orderId, currentUser, r)
      ensures r.status != 403
    {
      var found := IndexOfId(orders, orderId);
      if found.None? {
        return NotFound();
      }
      var viewingOrder := orders[found.value];
      forall o | o in orders && Some(o.id) == orderId ensures o == viewingOrder {
        UniqueAt(orders, IdOf, found.value, o);
      }
      match currentUser.role
      case Admin =>
        r := SendJson(OrderDoc(viewingOrder), 200);
      case Customer =>
        if viewingOrder.customerId == currentUser.id {
          r := SendJson(OrderDoc(viewingOrder), 200);
        } else {
          r := NotFound();
        }
    }

    method AddOrder(orderData: Body, currentUser: User, newId: ObjectId) returns (r: Response)
      requires Valid()
      requires forall o :: o in orders ==> o.id != newId
      modifies this
      ensures Valid()
      ensures AddOrderSpec(old(orders), orders, orderData, currentUser, newId, r)
    {
      match Save(newId, Some(currentUser.id), orderData.items)
      case Success(o) =>
        AppendFreshKey(orders, IdOf, o);
        AllWellFormedAppend(orders, o);
        orders := orders + [o];
        r := CreatedResource(OrderDoc(o));
      case Failure(e) =>
        r := BadRequest(Some(Invalid(e)));
    }
  }

  /** An order placed with a well-formed single item is stored with the caller as owner and that item. */
  lemma PlaceSingleItemOrder(newId: ObjectId, caller: User, item: OrderedItemFields)
    requires ItemValid(item)
    ensures Save(newId, Some(caller.id), Some([item])).Success?
    ensures var o := Save(newId, Some(caller.id), Some([item])).value;
            o.id == newId && o.customerId == caller.id && o.items == [StoreItem(item)]
  {
    var o := Save(newId, Some(caller.id), Some([item])).value;
    assert |o.items| == 1 && o.items[0] == StoreItem(item);
  }
}
