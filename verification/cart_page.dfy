/** The cart page: the local list of cart entries, the three handlers that
    update it after the server has answered, and the total shown under it.
    Prices are whole numbers of cents. */
module CartPage {
  import opened JsSemantics

  /** `item.productId`: the populated product of a cart entry. */
  datatype ProductRef = ProductRef(id: string, price: int)

  /** One entry of `cartItems`. */
  datatype CartEntry = CartEntry(product: ProductRef, quantity: int)

  /** The productId guard of the increase and decrease handlers: an empty
      id or the literal "cart" is refused. */
  predicate ValidProductId(productId: string)
  {
    productId != "" && productId != "cart"
  }

  // ---------------------------------------------------------------------------
  // The new lists

  function Increment(productId: string): CartEntry -> CartEntry
  {
    (e: CartEntry) => if e.product.id == productId then e.(quantity := e.quantity + 1) else e
  }

  function Decrement(productId: string): CartEntry -> CartEntry
  {
    (e: CartEntry) => if e.product.id == productId && e.quantity > 1 then e.(quantity := e.quantity - 1) else e
  }

  function OtherProduct(productId: string): CartEntry -> bool
  {
    (e: CartEntry) => e.product.id != productId
  }

  /** The list after `handleIncreaseQuantity`. */
  function Increased(items: seq<CartEntry>, productId: string): seq<CartEntry>
  {
    Map(items, Increment(productId))
  }

  /** The list after `handleDecreaseQuantity`. */
  function Decreased(items: seq<CartEntry>, productId: string): seq<CartEntry>
  {
    Map(items, Decrement(productId))
  }

  /** The list after `handleRemoveItem`. */
  function Removed(items: seq<CartEntry>, productId: string): seq<CartEntry>
  {
    Filter(items, OtherProduct(productId))
  }

  /** Increase adds 1 to every matching entry and leaves every other entry,
      the length and the order as they were. */
  lemma IncreasedAt(items: seq<CartEntry>, productId: string, i: int)
    requires 0 <= i < |items|
    ensures |Increased(items, productId)| == |items|
    ensures Increased(items, productId)[i]
      == if items[i].product.id == productId then items[i].(quantity := items[i].quantity + 1) else items[i]
  {
    MapAt(items, Increment(productId), i);
  }

  /** Decrease takes 1 from a matching entry only above 1; an entry at 1
      stays at 1 and nothing else changes. */
  lemma DecreasedAt(items: seq<CartEntry>, productId: string, i: int)
    requires 0 <= i < |items|
    ensures |Decreased(items, productId)| == |items|
    ensures Decreased(items, productId)[i]
      == if items[i].product.id == productId && items[i].quantity > 1
         then items[i].(quantity := items[i].quantity - 1) else items[i]
  {
    MapAt(items, Decrement(productId), i);
  }

  /** Quantities of at least 1 stay at least 1 under both updates. */
  predicate QuantitiesPositive(items: seq<CartEntry>)
  {
    forall i :: 0 <= i < |items| ==> items[i].quantity >= 1
  }

  lemma UpdatesKeepQuantitiesPositive(items: seq<CartEntry>, productId: string)
    requires QuantitiesPositive(items)
    ensures QuantitiesPositive(Increased(items, productId))
    ensures QuantitiesPositive(Decreased(items, productId))
    ensures QuantitiesPositive(Removed(items, productId))
  {
    forall i | 0 <= i < |items| ensures Increased(items, productId)[i].quantity >= 1 {
      IncreasedAt(items, productId, i);
    }
    forall i | 0 <= i < |items| ensures Decreased(items, productId)[i].quantity >= 1 {
      DecreasedAt(items, productId, i);
    }
    var r := Removed(items, productId);
    forall i | 0 <= i < |r| ensures r[i].quantity >= 1 {
      assert r[i] in r;
    }
  }

  /** Remove keeps exactly the entries of other products. */
  lemma RemovedMembership(items: seq<CartEntry>, productId: string, e: CartEntry)
    ensures e in Removed(items, productId) <==> e in items && e.product.id != productId
  {
    FilterMembership(items, OtherProduct(productId), e);
  }

  /** Remove works piece by piece, so the remaining entries keep their
      order and their number. */
  lemma RemovedConcat(a: seq<CartEntry>, b: seq<CartEntry>, productId: string)
    ensures Removed(a + b, productId) == Removed(a, productId) + Removed(b, productId)
  {
    FilterConcat(a, b, OtherProduct(productId));
  }

  // ---------------------------------------------------------------------------
  // The total

  function Subtotal(e: CartEntry): int
  {
    e.product.price * e.quantity
  }

  /** `cartItems.reduce((sum, item) => sum + price * quantity, 0)`: a left
      fold from 0. */
  function Total(items: seq<CartEntry>): int
  {
    if |items| == 0 then 0 else Total(items[..|items| - 1]) + Subtotal(items[|items| - 1])
  }

  /** The total of two lists put together is the sum of their totals. */
  lemma {:induction false} TotalConcat(a: seq<CartEntry>, b: seq<CartEntry>)
    ensures Total(a + b) == Total(a) + Total(b)
  {
    if |b| == 0 {
      assert a + b == a;
    } else {
      var c := a + b;
      assert c[..|c| - 1] == a + b[..|b| - 1];
      TotalConcat(a, b[..|b| - 1]);
    }
  }

  lemma {:induction false} TotalCons(e: CartEntry, rest: seq<CartEntry>)
    ensures Total([e] + rest) == Subtotal(e) + Total(rest)
  {
    TotalConcat([e], rest);
    assert [e][..0] == [];
  }

  /** The entries of one product. */
  function Matching(items: seq<CartEntry>, productId: string): seq<CartEntry>
  {
    Filter(items, (e: CartEntry) => e.product.id == productId)
  }

  /** The sum of the prices of a list's entries. */
  function PriceSum(items: seq<CartEntry>): int
  {
    if |items| == 0 then 0 else items[0].product.price + PriceSum(items[1..])
  }

  lemma IncreasedCons(e: CartEntry, rest: seq<CartEntry>, productId: string)
    ensures Increased([e] + rest, productId) == [Increment(productId)(e)] + Increased(rest, productId)
  {
    assert ([e] + rest)[1..] == rest;
  }

  lemma MatchingCons(e: CartEntry, rest: seq<CartEntry>, productId: string)
    ensures Matching([e] + rest, productId)
      == if e.product.id == productId then [e] + Matching(rest, productId) else Matching(rest, productId)
  {
    assert ([e] + rest)[1..] == rest;
  }

  /** The first entry's share of the change: its unit price when it
      matches, nothing otherwise. */
  lemma TotalIncreasedHead(e: CartEntry, rest: seq<CartEntry>, productId: string)
    ensures Subtotal(Increment(productId)(e))
      == Subtotal(e) + (if e.product.id == productId then e.product.price else 0)
    ensures PriceSum(Matching([e] + rest, productId))
      == (if e.product.id == productId then e.product.price else 0) + PriceSum(Matching(rest, productId))
  {
    MatchingCons(e, rest, productId);
    if e.product.id == productId {
      calc {
        Subtotal(Increment(productId)(e));
        e.product.price * (e.quantity + 1);
        e.product.price * e.quantity + e.product.price;
      }
      var m := [e] + Matching(rest, productId);
      assert m[0] == e && m[1..] == Matching(rest, productId);
    }
  }

  /** Increase raises the total by one unit price per matching entry. */
  lemma {:induction false} TotalIncreased(items: seq<CartEntry>, productId: string)
    ensures Total(Increased(items, productId)) == Total(items) + PriceSum(Matching(items, productId))
  {
    if |items| > 0 {
      var e := items[0];
      var rest := items[1..];
      assert items == [e] + rest;
      TotalIncreased(rest, productId);
      IncreasedCons(e, rest, productId);
      TotalCons(Increment(productId)(e), Increased(rest, productId));
      TotalCons(e, rest);
      TotalIncreasedHead(e, rest, productId);
    }
  }

  /** Remove lowers the total by the subtotals of the removed entries. */
  lemma {:induction false} TotalRemoved(items: seq<CartEntry>, productId: string)
    ensures Total(Removed(items, productId)) == Total(items) - Total(Matching(items, productId))
  {
    if |items| > 0 {
      var e := items[0];
      var rest := items[1..];
      assert items == [e] + rest;
      TotalRemoved(rest, productId);
      TotalCons(e, rest);
      if e.product.id == productId {
        assert Matching(items, productId) == [e] + Matching(rest, productId);
        TotalCons(e, Matching(rest, productId));
      } else {
        assert Removed(items, productId) == [e] + Removed(rest, productId);
        assert Matching(items, productId) == Matching(rest, productId);
        TotalCons(e, Removed(rest, productId));
      }
    }
  }

  /** No two entries are for the same product. */
  predicate UniqueProducts(items: seq<CartEntry>)
  {
    forall i, j :: 0 <= i < j < |items| ==> items[i].product.id != items[j].product.id
  }

  /** With one entry per product, entry k is the only match of its id. */
  lemma {:induction false} MatchingUnique(items: seq<CartEntry>, k: int)
    requires UniqueProducts(items) && 0 <= k < |items|
    ensures Matching(items, items[k].product.id) == [items[k]]
  {
    var id := items[k].product.id;
    var keep := (e: CartEntry) => e.product.id == id;
    assert items == items[..k] + [items[k]] + items[k + 1..];
    FilterConcat(items[..k] + [items[k]], items[k + 1..], keep);
    FilterConcat(items[..k], [items[k]], keep);
    NoneMatch(items[..k], id);
    NoneMatch(items[k + 1..], id);
    assert Filter([items[k]], keep) == [items[k]] + Filter([], keep);
  }

  lemma {:induction false} NoneMatch(items: seq<CartEntry>, productId: string)
    requires forall i :: 0 <= i < |items| ==> items[i].product.id != productId
    ensures Matching(items, productId) == []
  {
    if |items| > 0 {
      NoneMatch(items[1..], productId);
    }
  }

  /** With one entry per product, increasing entry k raises the total by its
      unit price, and removing it lowers the total by its subtotal. */
  lemma TotalChangeOfOneEntry(items: seq<CartEntry>, k: int)
    requires UniqueProducts(items) && 0 <= k < |items|
    ensures Total(Increased(items, items[k].product.id)) == Total(items) + items[k].product.price
    ensures Total(Removed(items, items[k].product.id)) == Total(items) - items[k].product.price * items[k].quantity
  {
    var id := items[k].product.id;
    MatchingUnique(items, k);
    TotalIncreased(items, id);
    TotalRemoved(items, id);
    TotalCons(items[k], []);
    assert [items[k]] + [] == [items[k]];
  }

  // ---------------------------------------------------------------------------
  // The page

  const UpdateFailedPrefix := "Failed to update quantity: "
  const RemoveFailedPrefix := "Failed to remove item: "
  const FetchFailedPrefix := "Error fetching cart items: "
  const NotAuthenticated := "User not authenticated"
  const InvalidProductId := "Invalid productId"

  /** The page's state: the entries, the error banner and the spinner. */
  class CartView {
    var cartItems: seq<CartEntry>
    var error: Option<string>
    var isLoading: bool

    /** `totalAmount` */
    function TotalAmount(): int
      reads this
    {
      Total(cartItems)
    }

    constructor ()
      ensures cartItems == [] && error.None? && isLoading
    {
      cartItems, error, isLoading := [], None, true;
    }

    /** The fetch on mount. `hasToken` says whether the auth cookie is set;
        `response` is the server's answer with the cart's entries. */
    method FetchCartItems(hasToken: bool, response: ApiCall<seq<CartEntry>>)
      modifies this
      ensures !isLoading
      ensures !hasToken ==> cartItems == old(cartItems) && error == Some(FetchFailedPrefix + NotAuthenticated)
      ensures hasToken && response.Rejected? ==>
        cartItems == old(cartItems) && error == Some(FetchFailedPrefix + response.message)
      ensures hasToken && response.Succeeded? ==> cartItems == response.value && error == old(error)
    {
      if !hasToken {
        error := Some(FetchFailedPrefix + NotAuthenticated);
      } else if response.Rejected? {
        error := Some(FetchFailedPrefix + response.message);
      } else {
        cartItems := response.value;
      }
      isLoading := false;
    }

    /** `handleIncreaseQuantity(productId)`; `response` is the outcome of
        the PUT request, which is sent only after both guards pass. */
    method IncreaseQuantity(productId: string, hasToken: bool, response: ApiCall<()>)
      modifies this
      ensures isLoading == old(isLoading)
      ensures !hasToken ==> cartItems == old(cartItems) && error == Some(UpdateFailedPrefix + NotAuthenticated)
      ensures hasToken && !ValidProductId(productId) ==>
        cartItems == old(cartItems) && error == Some(UpdateFailedPrefix + InvalidProductId)
      ensures hasToken && ValidProductId(productId) && response.Rejected? ==>
        cartItems == old(cartItems) && error == Some(UpdateFailedPrefix + response.message)
      ensures hasToken && ValidProductId(productId) && response.Succeeded? ==>
        cartItems == Increased(old(cartItems), productId) && error == old(error)
    {
      if !hasToken {
        error := Some(UpdateFailedPrefix + NotAuthenticated);
      } else if !ValidProductId(productId) {
        error := Some(UpdateFailedPrefix + InvalidProductId);
      } else if response.Rejected? {
        error := Some(UpdateFailedPrefix + response.message);
      } else {
        cartItems := Increased(cartItems, productId);
      }
    }

    /** `handleDecreaseQuantity(productId)`. */
    method DecreaseQuantity(productId: string, hasToken: bool, response: ApiCall<()>)
      modifies this
      ensures isLoading == old(isLoading)
      ensures !hasToken ==> cartItems == old(cartItems) && error == Some(UpdateFailedPrefix + NotAuthenticated)
      ensures hasToken && !ValidProductId(productId) ==>
        cartItems == old(cartItems) && error == Some(UpdateFailedPrefix + InvalidProductId)
      ensures hasToken && ValidProductId(productId) && response.Rejected? ==>
        cartItems == old(cartItems) && error == Some(UpdateFailedPrefix + response.message)
      ensures hasToken && ValidProductId(productId) && response.Succeeded? ==>
        cartItems == Decreased(old(cartItems), productId) && error == old(error)
    {
      if !hasToken {
        error := Some(UpdateFailedPrefix + NotAuthenticated);
      } else if !ValidProductId(productId) {
        error := Some(UpdateFailedPrefix + InvalidProductId);
      } else if response.Rejected? {
        error := Some(UpdateFailedPrefix + response.message);
      } else {
        cartItems := Decreased(cartItems, productId);
      }
    }

    /** `handleRemoveItem(productId)`: this handler has no productId guard. */
    method RemoveItem(productId: string, hasToken: bool, response: ApiCall<()>)
      modifies this
      ensures isLoading == old(isLoading)
      ensures !hasToken ==> cartItems == old(cartItems) && error == Some(RemoveFailedPrefix + NotAuthenticated)
      ensures hasToken && response.Rejected? ==>
        cartItems == old(cartItems) && error == Some(RemoveFailedPrefix + response.message)
      ensures hasToken && response.Succeeded? ==>
        cartItems == Removed(old(cartItems), productId) && error == old(error)
    {
      if !hasToken {
        error := Some(RemoveFailedPrefix + NotAuthenticated);
      } else if response.Rejected? {
        error := Some(RemoveFailedPrefix + response.message);
      } else {
        cartItems := Removed(cartItems, productId);
      }
    }
  }
}
