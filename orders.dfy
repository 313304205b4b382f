/** The cart and order handlers of routes/orders.js. A cart is the Order
    document of a user whose status is "Cart"; each handler loads it (or
    builds a fresh one), changes it in place through a `Cart` object, and
    saves it back into the order collection. The caller's identity is the
    already verified token payload's user id. */
module Orders {
  import opened Common
  import opened OrderModel
  import opened CartItems

  const CartStatus: string := "Cart"
  const PlacedStatus: string := "Pending"

  /** The 404 outcomes of the cart handlers. */
  datatype CartError = ProductNotFound | CartNotFound | ItemNotFound

  function ErrorMessage(e: CartError): string
  {
    match e
    case ProductNotFound => "Product not found"
    case CartNotFound => "Cart not found"
    case ItemNotFound => "Item not found in cart"
  }

  /** What a handler answers. `Failed` is the catch-all 500 reply. */
  datatype Response =
    | CartBody(cart: Order)
    | Cleared
    | OrderPlaced(order: Order)
    | NotFound(error: CartError)
    | Failed(message: string)

  function StatusCode(r: Response): nat
  {
    match r
    case CartBody(_) => 200
    case Cleared => 200
    case OrderPlaced(_) => 201
    case NotFound(_) => 404
    case Failed(_) => 500
  }

  /** The body's message, where the handler sends one. */
  function ResponseMessage(r: Response): Option<string>
  {
    match r
    case CartBody(_) => None
    case Cleared => Some("Cart cleared successfully")
    case OrderPlaced(_) => Some("Order placed successfully")
    case NotFound(e) => Some(ErrorMessage(e))
    case Failed(m) => Some(m)
  }

  /** The position of the user's first document with status "Cart", in
      collection order. */
  function FindCart(orders: seq<Order>, user: UserId): (r: Option<nat>)
    ensures r.Some? ==> r.value < |orders| && orders[r.value].user == user
    ensures r.Some? ==> orders[r.value].status == Some(CartStatus)
    ensures r.Some? ==> forall j :: 0 <= j < r.value ==>
              !(orders[j].user == user && orders[j].status == Some(CartStatus))
    ensures r.None? <==> forall j :: 0 <= j < |orders| ==>
              !(orders[j].user == user && orders[j].status == Some(CartStatus))
  {
    FirstMatch(orders, (o: Order) => o.user == user && o.status == Some(CartStatus))
  }

  /** The empty cart built when a user has none. */
  function NewCart(user: UserId): (o: Order)
    ensures o.user == user && o.items == [] && o.totalAmount == 0
    ensures o.status == Some(CartStatus) && o.totalAmount == Total(o.items)
  {
    Order(user, [], None, 0, Some(CartStatus))
  }

  /** The cart a handler works on: the stored one, else a fresh one. It is
      always the user's cart, and it inherits the collection's invariants. */
  function CurrentCart(orders: seq<Order>, user: UserId): (r: Order)
    ensures r.user == user && r.status == Some(CartStatus)
    ensures FindCart(orders, user).Some? ==> r == orders[FindCart(orders, user).value]
    ensures FindCart(orders, user).None? ==> r.items == [] && r.totalAmount == 0
    ensures CartTotalsConsistent(orders) ==> r.totalAmount == Total(r.items)
    ensures CartItemsDistinct(orders) ==> DistinctProducts(r.items)
  {
    match FindCart(orders, user)
    case Some(i) => orders[i]
    case None => NewCart(user)
  }

  /** The collection after `save`: a loaded document is overwritten where
      it was found, a new one is inserted at the end. */
  function Stored(orders: seq<Order>, at: Option<nat>, doc: Order): (r: seq<Order>)
    requires at.Some? ==> at.value < |orders|
    ensures at.Some? ==> |r| == |orders| && r[at.value] == doc
    ensures at.Some? ==> forall j :: 0 <= j < |orders| && j != at.value ==> r[j] == orders[j]
    ensures at.None? ==> |r| == |orders| + 1 && r[..|orders|] == orders && r[|orders|] == doc
  {
    match at
    case Some(i) => orders[i := doc]
    case None =>
      assert (orders + [doc])[..|orders|] == orders;
      orders + [doc]
  }

  /** Every cart's stored total is the sum of quantity times price over its
      items. Placed orders are exempt: their total is the client's. */
  ghost predicate CartTotalsConsistent(orders: seq<Order>)
  {
    forall i :: 0 <= i < |orders| && orders[i].status == Some(CartStatus) ==>
      orders[i].totalAmount == Total(orders[i].items)
  }

  /** No user owns two carts. Nothing in the schema enforces this; the
      handlers keep it, one request at a time. */
  ghost predicate OneCartPerUser(orders: seq<Order>)
  {
    forall i, j ::
      (0 <= i < j < |orders| && orders[i].status == Some(CartStatus) && orders[j].status == Some(CartStatus))
      ==> orders[i].user != orders[j].user
  }

  /** No cart holds two line items for the same product. */
  ghost predicate CartItemsDistinct(orders: seq<Order>)
  {
    forall i :: 0 <= i < |orders| && orders[i].status == Some(CartStatus) ==>
      DistinctProducts(orders[i].items)
  }

  /** Saving the user's current cart, with a consistent total and distinct
      products, keeps the three collection invariants. */
  lemma {:induction false} SaveCartKeepsInvariants(orders: seq<Order>, user: UserId, doc: Order)
    requires CartTotalsConsistent(orders) && OneCartPerUser(orders) && CartItemsDistinct(orders)
    requires doc.user == user && doc.status == Some(CartStatus)
    requires doc.totalAmount == Total(doc.items) && DistinctProducts(doc.items)
    ensures var r := Stored(orders, FindCart(orders, user), doc);
            CartTotalsConsistent(r) && OneCartPerUser(r) && CartItemsDistinct(r)
  {
    var at := FindCart(orders, user);
    var r := Stored(orders, at, doc);
    match at
    case Some(k) =>
      forall i, j | 0 <= i < j < |r| && r[i].status == Some(CartStatus) && r[j].status == Some(CartStatus)
        ensures r[i].user != r[j].user
      {
        if i == k {
          assert r[j] == orders[j];
        } else if j == k {
          assert r[i] == orders[i];
        } else {
          assert r[i] == orders[i] && r[j] == orders[j];
        }
      }
    case None =>
      forall i, j | 0 <= i < j < |r| && r[i].status == Some(CartStatus) && r[j].status == Some(CartStatus)
        ensures r[i].user != r[j].user
      {
        assert r[i] == orders[i];
        if j < |orders| {
          assert r[j] == orders[j];
        }
      }
  }

  /** Appending a document that is not a cart keeps both invariants and
      leaves every user's cart where it was. */
  lemma AppendNonCartKeepsInvariants(orders: seq<Order>, doc: Order, user: UserId)
    requires doc.status != Some(CartStatus)
    ensures CartTotalsConsistent(orders) ==> CartTotalsConsistent(orders + [doc])
    ensures OneCartPerUser(orders) ==> OneCartPerUser(orders + [doc])
    ensures CartItemsDistinct(orders) ==> CartItemsDistinct(orders + [doc])
    ensures FindCart(orders + [doc], user) == FindCart(orders, user)
  {
    FirstMatchAppend(orders, doc, (o: Order) => o.user == user && o.status == Some(CartStatus));
  }

  /** A cart created by get-cart is the one every later lookup finds. */
  lemma CreatedCartIsFound(orders: seq<Order>, user: UserId)
    requires FindCart(orders, user).None?
    ensures FindCart(orders + [NewCart(user)], user) == Some(|orders|)
  {
    FirstMatchAppend(orders, NewCart(user), (o: Order) => o.user == user && o.status == Some(CartStatus));
  }

  /** The document place-order saves: the caller's items mapped one to one,
      the caller's shipping info and total copied unchecked, status Pending. */
  function PlacedOrder(user: UserId, items: seq<ClientItem>, shippingInfo: Option<ShippingInfo>,
                       totalAmount: int): (o: Order)
    ensures o.user == user && o.shippingInfo == shippingInfo && o.totalAmount == totalAmount
    ensures o.status == Some(PlacedStatus) && EffectiveStatus(o) in StatusValues
    ensures |o.items| == |items|
    ensures forall i :: 0 <= i < |items| ==>
              (o.items[i].product == items[i].id && o.items[i].quantity == items[i].quantity
               && o.items[i].price == items[i].price)
  {
    Order(user, ToLineItems(items), shippingInfo, totalAmount, Some(PlacedStatus))
  }

  /** The placed total is not checked against the items: a client can have
      an order stored whose total disagrees with its own line items. */
  lemma PlacedTotalIsUnchecked()
    ensures var o := PlacedOrder("u", [ClientItem("p", None, None, 2, 500)], None, 1);
            o.totalAmount != Total(o.items)
  {
    var o := PlacedOrder("u", [ClientItem("p", None, None, 2, 500)], None, 1);
    assert o.items == [LineItem("p", None, None, 2, 500)];
    TotalSingleton(o.items[0]);
  }

  /** A placed order passes validation exactly when every quantity sent is
      at least one. */
  lemma PlacedOrderSchemaValid(user: UserId, items: seq<ClientItem>, shippingInfo: Option<ShippingInfo>,
                               totalAmount: int)
    ensures SchemaValid(PlacedOrder(user, items, shippingInfo, totalAmount))
            <==> forall i :: 0 <= i < |items| ==> items[i].quantity >= 1
  {
    var o := PlacedOrder(user, items, shippingInfo, totalAmount);
    assert forall i :: 0 <= i < |items| ==> ItemValid(o.items[i]) == (items[i].quantity >= 1);
  }

  /** The Mongoose document a cart handler changes in place. Each mutating
      method leaves `totalAmount` equal to the recomputed sum. */
  class Cart {
    var user: UserId
    var items: seq<LineItem>
    var shippingInfo: Option<ShippingInfo>
    var totalAmount: int
    var status: Option<string>

    constructor Load(o: Order)
      ensures Doc() == o
    {
      user := o.user;
      items := o.items;
      shippingInfo := o.shippingInfo;
      totalAmount := o.totalAmount;
      status := o.status;
    }

    /** The document as it would be saved. */
    function Doc(): Order
      reads this
    {
      Order(user, items, shippingInfo, totalAmount, status)
    }

    /** Add: bump the first entry for the product or append a snapshot,
        then recompute the total. */
    method AddProduct(productId: ProductId, product: Product, quantity: int)
      modifies this`items, this`totalAmount
      ensures items == AddedItems(old(items), productId, product, quantity)
      ensures totalAmount == Total(items)
    {
      var index := FindItem(items, productId);
      if index.Some? {
        var i := index.value;
        items := items[i := items[i].(quantity := items[i].quantity + quantity)];
      } else {
        items := items + [Snapshot(productId, product, quantity)];
      }
      totalAmount := Total(items);
    }

    /** Update: overwrite one entry's quantity, then recompute the total. */
    method SetQuantity(i: nat, quantity: int)
      requires i < |items|
      modifies this`items, this`totalAmount
      ensures items == QuantitySet(old(items), i, quantity)
      ensures totalAmount == Total(items)
    {
      items := items[i := items[i].(quantity := quantity)];
      totalAmount := Total(items);
    }

    /** Remove: drop every entry for the product, then recompute the total. */
    method RemoveProduct(productId: ProductId)
      modifies this`items, this`totalAmount
      ensures items == Without(old(items), productId)
      ensures totalAmount == Total(items)
    {
      items := Without(items, productId);
      totalAmount := Total(items);
    }

    /** Clear: no entries, and a total of 0. */
    method Clear()
      modifies this`items, this`totalAmount
      ensures items == [] && totalAmount == 0 && totalAmount == Total(items)
    {
      items := [];
      totalAmount := 0;
    }
  }

  /** The order collection. */
  class OrderStore {
    var orders: seq<Order>

    ghost predicate Valid()
      reads this
    {
      CartTotalsConsistent(orders) && OneCartPerUser(orders) && CartItemsDistinct(orders)
    }

    constructor ()
      ensures orders == [] && Valid()
    {
      orders := [];
    }

    /** Saving a document loaded from position `at`, or a new one when
        `at` is None. */
    method Save(at: Option<nat>, doc: Order)
      requires at.Some? ==> at.value < |orders|
      modifies this
      ensures orders == Stored(old(orders), at, doc)
    {
      orders := Stored(orders, at, doc);
    }

    /** GET /cart: the user's cart, created empty and saved when absent. */
    method GetCart(userId: UserId) returns (cart: Order)
      modifies this
      ensures FindCart(old(orders), userId).Some? ==>
                cart == old(orders)[FindCart(old(orders), userId).value] && orders == old(orders)
      ensures FindCart(old(orders), userId).None? ==>
                cart == NewCart(userId) && orders == old(orders) + [cart]
      ensures cart.user == userId && cart.status == Some(CartStatus)
      ensures FindCart(orders, userId).Some? && orders[FindCart(orders, userId).value] == cart
      ensures old(Valid()) ==> Valid()
    {
      var found := FindCart(orders, userId);
      if found.Some? {
        cart := orders[found.value];
      } else {
        cart := NewCart(userId);
        CreatedCartIsFound(orders, userId);
        if Valid() {
          SaveCartKeepsInvariants(orders, userId, cart);
        }
        Save(None, cart);
      }
    }

    /** POST /cart/add with the catalog lookup the handler intends. */
    method AddToCart(userId: UserId, productId: ProductId, quantity: int, catalog: map<ProductId, Product>)
      returns (r: Response)
      modifies this
      ensures productId !in catalog ==> r == NotFound(ProductNotFound) && orders == old(orders)
      ensures productId in catalog ==>
                var base := CurrentCart(old(orders), userId);
                var items := AddedItems(base.items, productId, catalog[productId], quantity);
                var saved := base.(items := items, totalAmount := Total(items));
                && r == CartBody(saved)
                && orders == Stored(old(orders), FindCart(old(orders), userId), saved)
      ensures old(Valid()) ==> Valid()
    {
      if productId !in catalog {
        return NotFound(ProductNotFound);
      }
      var product := catalog[productId];
      var found := FindCart(orders, userId);
      var base := CurrentCart(orders, userId);
      var cart := new Cart.Load(base);
      cart.AddProduct(productId, product, quantity);
      var saved := cart.Doc();
      if Valid() {
        AddedKeepsDistinct(base.items, productId, product, quantity);
        SaveCartKeepsInvariants(orders, userId, saved);
      }
      Save(found, saved);
      r := CartBody(saved);
    }

    /** POST /cart/add as written: `Product` is never imported, so the
        lookup throws and the catch-all answers 500 before any cart is read
        or written. */
    method AddToCartAsWritten(userId: UserId, productId: ProductId, quantity: int) returns (r: Response)
      ensures r == Failed("Failed to add item to cart") && StatusCode(r) == 500
    {
      r := Failed("Failed to add item to cart");
    }

    /** PUT /cart/update/:productId. No lower bound on the quantity. */
    method UpdateCartItem(userId: UserId, productId: ProductId, quantity: int) returns (r: Response)
      modifies this
      ensures FindCart(old(orders), userId).None? ==> r == NotFound(CartNotFound) && orders == old(orders)
      ensures FindCart(old(orders), userId).Some? ==>
                var at := FindCart(old(orders), userId);
                var base := old(orders)[at.value];
                match FindItem(base.items, productId)
                case None => r == NotFound(ItemNotFound) && orders == old(orders)
                case Some(i) =>
                  var items := QuantitySet(base.items, i, quantity);
                  var saved := base.(items := items, totalAmount := Total(items));
                  r == CartBody(saved) && orders == Stored(old(orders), at, saved)
      ensures old(Valid()) ==> Valid()
    {
      var found := FindCart(orders, userId);
      if found.None? {
        return NotFound(CartNotFound);
      }
      var cart := new Cart.Load(orders[found.value]);
      var index := FindItem(cart.items, productId);
      if index.None? {
        return NotFound(ItemNotFound);
      }
      cart.SetQuantity(index.value, quantity);
      var saved := cart.Doc();
      if Valid() {
        QuantitySetKeepsDistinct(orders[found.value].items, index.value, quantity);
        SaveCartKeepsInvariants(orders, userId, saved);
      }
      Save(found, saved);
      r := CartBody(saved);
    }

    /** DELETE /cart/remove/:productId. An absent product is not an error. */
    method RemoveCartItem(userId: UserId, productId: ProductId) returns (r: Response)
      modifies this
      ensures FindCart(old(orders), userId).None? ==> r == NotFound(CartNotFound) && orders == old(orders)
      ensures FindCart(old(orders), userId).Some? ==>
                var at := FindCart(old(orders), userId);
                var base := old(orders)[at.value];
                var items := Without(base.items, productId);
                var saved := base.(items := items, totalAmount := Total(items));
                r == CartBody(saved) && orders == Stored(old(orders), at, saved)
      ensures old(Valid()) ==> Valid()
    {
      var found := FindCart(orders, userId);
      if found.None? {
        return NotFound(CartNotFound);
      }
      var cart := new Cart.Load(orders[found.value]);
      cart.RemoveProduct(productId);
      var saved := cart.Doc();
      if Valid() {
        WithoutKeepsDistinct(orders[found.value].items, productId);
        SaveCartKeepsInvariants(orders, userId, saved);
      }
      Save(found, saved);
      r := CartBody(saved);
    }

    /** DELETE /cart/clear. */
    method ClearCart(userId: UserId) returns (r: Response)
      modifies this
      ensures FindCart(old(orders), userId).None? ==> r == NotFound(CartNotFound) && orders == old(orders)
      ensures FindCart(old(orders), userId).Some? ==>
                var at := FindCart(old(orders), userId);
                var saved := old(orders)[at.value].(items := [], totalAmount := 0);
                r == Cleared && orders == Stored(old(orders), at, saved)
      ensures old(Valid()) ==> Valid()
    {
      var found := FindCart(orders, userId);
      if found.None? {
        return NotFound(CartNotFound);
      }
      var cart := new Cart.Load(orders[found.value]);
      cart.Clear();
      var saved := cart.Doc();
      if Valid() {
        SaveCartKeepsInvariants(orders, userId, saved);
      }
      Save(found, saved);
      r := Cleared;
    }

    /** POST /place-order: a new Pending order from the caller's data; the
        cart is neither read nor touched. */
    method PlaceOrder(userId: UserId, items: seq<ClientItem>, shippingInfo: Option<ShippingInfo>,
                      totalAmount: int) returns (r: Response)
      modifies this
      ensures r == OrderPlaced(PlacedOrder(userId, items, shippingInfo, totalAmount))
      ensures orders == old(orders) + [r.order]
      ensures forall u :: FindCart(orders, u) == FindCart(old(orders), u)
      ensures old(Valid()) ==> Valid()
    {
      var order := PlacedOrder(userId, items, shippingInfo, totalAmount);
      forall u
        ensures FindCart(orders + [order], u) == FindCart(orders, u)
      {
        AppendNonCartKeepsInvariants(orders, order, u);
      }
      AppendNonCartKeepsInvariants(orders, order, userId);
      Save(None, order);
      r := OrderPlaced(order);
    }
  }

  /** Clearing is idempotent: clearing the cleared cart stores the same
      document again. */
  lemma ClearTwiceSameState(orders: seq<Order>, user: UserId)
    requires FindCart(orders, user).Some?
    ensures var at := FindCart(orders, user);
            var once := Stored(orders, at, orders[at.value].(items := [], totalAmount := 0));
            FindCart(once, user) == at
            && Stored(once, at, once[at.value].(items := [], totalAmount := 0)) == once
  {
    var at := FindCart(orders, user);
    var once := Stored(orders, at, orders[at.value].(items := [], totalAmount := 0));
    var p := (o: Order) => o.user == user && o.status == Some(CartStatus);
    assert p(once[at.value]);
    assert forall j :: 0 <= j < at.value ==> once[j] == orders[j];
  }

  /** Adding 2 of p1 at 5 to an empty cart and then 3 more leaves a single
      entry of quantity 5 and a total of 25. */
  lemma AddTwiceExample()
    ensures var once := AddedItems([], "p1", Product("n", 5), 2);
            var twice := AddedItems(once, "p1", Product("n", 5), 3);
            |twice| == 1 && twice[0].quantity == 5 && Total(twice) == 25
  {
    var once := AddedItems([], "p1", Product("n", 5), 2);
    assert once == [Snapshot("p1", Product("n", 5), 2)];
    TotalSingleton(once[0]);
  }
}
