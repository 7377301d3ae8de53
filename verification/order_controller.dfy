/** The order handlers of the REST API: `createOrder` looks the caller up by
    e-mail, snapshots the request's items into order lines and appends the
    order to the order collection; `getUserOrders` lists the caller's
    orders. Nothing here checks or changes product stock, recomputes the
    total, or cancels an order: the handlers do none of these. */
module OrderController {
  import opened JsSemantics

  /** The account fields the handlers use. */
  datatype User = User(id: string, email: string)

  /** One element of the request's `items`, as the client sends it. */
  datatype RequestItem = RequestItem(id: string, name: string, quantity: int, price: int, image: string)

  /** The request body of `createOrder`. `items` is `None` when the body has
      no `items` array. */
  datatype OrderRequest = OrderRequest(items: Option<seq<RequestItem>>, shippingAddressId: string, totalAmount: int)

  /** One stored order line. */
  datatype OrderLine = OrderLine(product: string, name: string, quantity: int, price: int, image: string)

  /** A stored order. */
  datatype Order = Order(id: string, user: string, orderItems: seq<OrderLine>, shippingAddress: string, totalAmount: int)

  /** The answer of a handler. */
  datatype Response<T> =
    | Success(value: T)     // 201 on create, 200 on list
    | UserNotFound          // 404 "User not found"
    | InternalError         // 500 "Internal Server Error"

  /** `User.findOne({ email })`: the first account with that e-mail. */
  function FindUserByEmail(users: seq<User>, email: string): (r: Option<User>)
    ensures r.None? <==> forall i :: 0 <= i < |users| ==> users[i].email != email
    ensures r.Some? ==> r.value.email == email && r.value in users
    ensures r.Some? ==> exists i :: 0 <= i < |users| && users[i] == r.value
                                  && forall j :: 0 <= j < i ==> users[j].email != email
  {
    if |users| == 0 then None
    else if users[0].email == email then Some(users[0])
    else
      var r := FindUserByEmail(users[1..], email);
      assert forall i :: 0 < i < |users| ==> users[i] == users[1..][i - 1];
      assert r.Some? ==> exists i :: 0 <= i < |users| && users[i] == r.value
                                   && forall j :: 0 <= j < i ==> users[j].email != email by {
        if r.Some? {
          var k :| 0 <= k < |users[1..]| && users[1..][k] == r.value
                   && forall j :: 0 <= j < k ==> users[1..][j].email != email;
          assert users[k + 1] == r.value;
          assert forall j :: 0 <= j < k + 1 ==> users[j].email != email by {
            forall j | 0 <= j < k + 1 ensures users[j].email != email {
              if j > 0 { assert users[j] == users[1..][j - 1]; }
            }
          }
        }
      }
      r
  }

  /** The body of the `items.map` callback: the line copies `_id`, name,
      quantity, price and image from the item. */
  function Snapshot(item: RequestItem): (line: OrderLine)
  {
    OrderLine(item.id, item.name, item.quantity, item.price, item.image)
  }

  /** `orderItems = items.map(...)`. */
  function OrderItems(items: seq<RequestItem>): seq<OrderLine>
  {
    Map(items, Snapshot)
  }

  /** The order lines have the items' length and order, and line i carries
      exactly the fields of item i. */
  lemma OrderItemsCopy(items: seq<RequestItem>, i: int)
    requires 0 <= i < |items|
    ensures |OrderItems(items)| == |items|
    ensures OrderItems(items)[i].product == items[i].id
    ensures OrderItems(items)[i].name == items[i].name
    ensures OrderItems(items)[i].quantity == items[i].quantity
    ensures OrderItems(items)[i].price == items[i].price
    ensures OrderItems(items)[i].image == items[i].image
  {
    MapAt(items, Snapshot, i);
  }

  /** `Order.find({ user: userId })`: the stored orders of one user, in
      stored order. */
  function OrdersOf(orders: seq<Order>, userId: string): seq<Order>
  {
    Filter(orders, (o: Order) => o.user == userId)
  }

  /** An order is listed exactly when it is stored and belongs to the user. */
  lemma OrdersOfMembership(orders: seq<Order>, userId: string, o: Order)
    ensures o in OrdersOf(orders, userId) <==> o in orders && o.user == userId
  {
    FilterMembership(orders, (o: Order) => o.user == userId, o);
  }

  /** After an order is appended, its owner's list gains it at the end and
      every other user's list is as before. */
  lemma {:induction false} OrdersOfAppend(orders: seq<Order>, o: Order, userId: string)
    ensures OrdersOf(orders + [o], userId)
      == if o.user == userId then OrdersOf(orders, userId) + [o] else OrdersOf(orders, userId)
  {
    var keep := (x: Order) => x.user == userId;
    FilterConcat(orders, [o], keep);
    assert Filter([o], keep) == if keep(o) then [o] + Filter([], keep) else Filter([], keep);
  }

  /** The order collection. */
  class OrderStore {
    var orders: seq<Order>

    constructor ()
      ensures orders == []
    {
      orders := [];
    }

    /** `createOrder`. `users` is the account collection, `email` the
        caller's e-mail from the verified token, `newId` the id the database
        gives the order, and `saveAccepts` the outcome of `order.save()`
        (the order schema's own validation is not part of this model). A
        body without `items` makes `items.map` throw, which the handler
        answers with 500. */
    method CreateOrder(users: seq<User>, email: string, request: OrderRequest, newId: string, saveAccepts: bool)
      returns (r: Response<string>)
      modifies this
      ensures FindUserByEmail(users, email).None? ==> r == UserNotFound && orders == old(orders)
      ensures FindUserByEmail(users, email).Some? && (request.items.None? || !saveAccepts) ==>
        r == InternalError && orders == old(orders)
      ensures FindUserByEmail(users, email).Some? && request.items.Some? && saveAccepts ==>
        r == Success(newId)
        && orders == old(orders) + [Order(newId, FindUserByEmail(users, email).value.id,
                                          OrderItems(request.items.value),
                                          request.shippingAddressId, request.totalAmount)]
    {
      var user := FindUserByEmail(users, email);
      if user.None? {
        return UserNotFound;
      }
      if request.items.None? {
        return InternalError;
      }
      var order := Order(newId, user.value.id, OrderItems(request.items.value),
                         request.shippingAddressId, request.totalAmount);
      if !saveAccepts {
        return InternalError;
      }
      orders := orders + [order];
      r := Success(newId);
    }

    /** `getUserOrders`. */
    method GetUserOrders(users: seq<User>, email: string) returns (r: Response<seq<Order>>)
      ensures FindUserByEmail(users, email).None? ==> r == UserNotFound
      ensures FindUserByEmail(users, email).Some? ==>
        r.Success? && forall o :: o in r.value <==> o in orders && o.user == FindUserByEmail(users, email).value.id
      ensures FindUserByEmail(users, email).Some? ==>
        r == Success(OrdersOf(orders, FindUserByEmail(users, email).value.id))
    {
      var user := FindUserByEmail(users, email);
      if user.None? {
        return UserNotFound;
      }
      var mine := OrdersOf(orders, user.value.id);
      forall o ensures o in mine <==> o in orders && o.user == user.value.id {
        OrdersOfMembership(orders, user.value.id, o);
      }
      r := Success(mine);
    }
  }
}
