/** The pure computations on a cart's line items in routes/orders.js: the
    `reduce` that gives `totalAmount`, the `findIndex` by product id, the
    `filter` of remove, the `map` of place-order, and the item sequences that
    add and update leave behind. */
module CartItems {
  import opened Common
  import opened OrderModel

  /** A catalog record, as far as the cart reads it. */
  datatype Product = Product(name: string, price: int)

  /** One entry of the `items` array a client sends to place-order. */
  datatype ClientItem = ClientItem(
    id: ProductId,
    imageUrl: Option<string>,
    name: Option<string>,
    quantity: int,
    price: int)

  function Subtotal(item: LineItem): int
  {
    item.quantity * item.price
  }

  /** The sum of quantity times price over the items, starting from 0 and
      folding from the left. */
  function Total(items: seq<LineItem>): int
  {
    if items == [] then 0
    else Total(items[..|items| - 1]) + Subtotal(items[|items| - 1])
  }

  /** The total of a concatenation is the sum of the totals. */
  lemma {:induction false} TotalConcat(a: seq<LineItem>, b: seq<LineItem>)
    ensures Total(a + b) == Total(a) + Total(b)
  {
    if b == [] {
      assert a + b == a;
    } else {
      var b' := b[..|b| - 1];
      assert (a + b)[..|a + b| - 1] == a + b';
      assert (a + b)[|a + b| - 1] == b[|b| - 1];
      TotalConcat(a, b');
    }
  }

  /** Changing the quantity of one line item moves the total by the change
      times that item's own (snapshot) price. */
  lemma TotalQuantityChange(items: seq<LineItem>, i: nat, quantity: int)
    requires i < |items|
    ensures Total(items[i := items[i].(quantity := quantity)])
            == Total(items) + (quantity - items[i].quantity) * items[i].price
  {
    var x := items[i].(quantity := quantity);
    var pre, post := items[..i], items[i + 1..];
    assert items == pre + [items[i]] + post;
    assert items[i := x] == pre + [x] + post;
    TotalConcat(pre + [items[i]], post);
    TotalConcat(pre + [x], post);
    TotalConcat(pre, [items[i]]);
    TotalConcat(pre, [x]);
    TotalSingleton(x);
    TotalSingleton(items[i]);
  }

  /** The position of the first item whose product id is `productId`. */
  function FindItem(items: seq<LineItem>, productId: ProductId): (r: Option<nat>)
    ensures r.Some? ==> r.value < |items| && items[r.value].product == productId
    ensures r.Some? ==> forall j :: 0 <= j < r.value ==> items[j].product != productId
    ensures r.None? <==> forall j :: 0 <= j < |items| ==> items[j].product != productId
  {
    FirstMatch(items, (item: LineItem) => item.product == productId)
  }

  /** No two line items share a product id. */
  predicate DistinctProducts(items: seq<LineItem>)
  {
    forall i, j :: 0 <= i < j < |items| ==> items[i].product != items[j].product
  }

  /** The new line item add appends: the catalog's current name and price,
      and no image. */
  function Snapshot(productId: ProductId, product: Product, quantity: int): LineItem
  {
    LineItem(productId, None, Some(product.name), quantity, product.price)
  }

  /** The items after add: the first entry for the product has its quantity
      raised, or, when there is none, a snapshot entry is appended. */
  function AddedItems(items: seq<LineItem>, productId: ProductId, product: Product, quantity: int)
    : (r: seq<LineItem>)
    ensures FindItem(items, productId).Some? ==>
              var i := FindItem(items, productId).value;
              && |r| == |items|
              && r[i].quantity == items[i].quantity + quantity
              && r[i] == items[i].(quantity := r[i].quantity)
              && (forall j :: 0 <= j < |items| && j != i ==> r[j] == items[j])
              && Total(r) == Total(items) + quantity * items[i].price
    ensures FindItem(items, productId).None? ==>
              && |r| == |items| + 1
              && r[..|items|] == items
              && r[|items|] == Snapshot(productId, product, quantity)
              && Total(r) == Total(items) + quantity * product.price
  {
    match FindItem(items, productId)
    case Some(i) =>
      TotalQuantityChange(items, i, items[i].quantity + quantity);
      items[i := items[i].(quantity := items[i].quantity + quantity)]
    case None =>
      var r := items + [Snapshot(productId, product, quantity)];
      assert r[..|items|] == items;
      r
  }

  /** Adding the same product twice is adding the sum once. */
  lemma AddTwiceIsAddSum(items: seq<LineItem>, productId: ProductId, product: Product, a: int, b: int)
    ensures AddedItems(AddedItems(items, productId, product, a), productId, product, b)
            == AddedItems(items, productId, product, a + b)
  {
    var once := AddedItems(items, productId, product, a);
    match FindItem(items, productId)
    case Some(i) =>
      FoundAgainAfterAdd(items, once, productId, i);
      assert once == items[i := items[i].(quantity := items[i].quantity + a)];
    case None =>
      FoundAgainAfterAdd(items, once, productId, |items|);
      assert once == items + [Snapshot(productId, product, a)];
  }

  /** If `once` agrees with `items` before position `i`, and `once[i]` is
      the first entry for the product, the lookup in `once` finds `i`. */
  lemma FoundAgainAfterAdd(items: seq<LineItem>, once: seq<LineItem>, productId: ProductId, i: nat)
    requires i < |once| && once[i].product == productId
    requires i <= |items| && forall j :: 0 <= j < i ==> once[j] == items[j]
    requires forall j :: 0 <= j < i ==> items[j].product != productId
    ensures FindItem(once, productId) == Some(i)
  {
    var r := FindItem(once, productId);
    assert r.Some?;
    assert !(r.value < i);
  }

  /** The items after update: entry `i` gets the new quantity, whatever its
      sign, and nothing else changes. */
  function QuantitySet(items: seq<LineItem>, i: nat, quantity: int): (r: seq<LineItem>)
    requires i < |items|
    ensures |r| == |items|
    ensures r[i] == items[i].(quantity := quantity)
    ensures forall j :: 0 <= j < |items| && j != i ==> r[j] == items[j]
    ensures Total(r) == Total(items) + (quantity - items[i].quantity) * items[i].price
  {
    TotalQuantityChange(items, i, quantity);
    items[i := items[i].(quantity := quantity)]
  }

  /** The items, in order, without every one whose product id is
      `productId`. */
  function Without(items: seq<LineItem>, productId: ProductId): (r: seq<LineItem>)
    ensures |r| <= |items|
    ensures forall j :: 0 <= j < |r| ==> r[j].product != productId
  {
    if items == [] then []
    else
      var rest := Without(items[1..], productId);
      if items[0].product == productId then rest else [items[0]] + rest
  }

  /** Removing a product the cart does not hold leaves the items as they
      are. */
  lemma {:induction false} WithoutAbsent(items: seq<LineItem>, productId: ProductId)
    requires forall j :: 0 <= j < |items| ==> items[j].product != productId
    ensures Without(items, productId) == items
  {
    if items != [] {
      assert items[0].product != productId;
      WithoutAbsent(items[1..], productId);
      assert items == [items[0]] + items[1..];
    }
  }

  /** An item survives removal exactly when it was in the cart under a
      different product id. */
  lemma {:induction false} WithoutMembership(items: seq<LineItem>, productId: ProductId, item: LineItem)
    ensures item in Without(items, productId) <==> item in items && item.product != productId
  {
    if items != [] {
      WithoutMembership(items[1..], productId, item);
      assert items == [items[0]] + items[1..];
    }
  }

  /** The filter keeps order: it distributes over concatenation. With the
      one-element case this pins `Without` down completely. */
  lemma {:induction false} WithoutConcat(a: seq<LineItem>, b: seq<LineItem>, productId: ProductId)
    ensures Without(a + b, productId) == Without(a, productId) + Without(b, productId)
  {
    if a == [] {
      assert a + b == b;
    } else {
      var x, rest := a[0], a[1..];
      assert a == [x] + rest;
      assert a + b == [x] + (rest + b);
      WithoutCons(x, rest, productId);
      WithoutCons(x, rest + b, productId);
      WithoutConcat(rest, b, productId);
    }
  }

  /** One step of the filter: the head is kept unless it matches. */
  lemma WithoutCons(x: LineItem, s: seq<LineItem>, productId: ProductId)
    ensures Without([x] + s, productId)
            == (if x.product == productId then [] else [x]) + Without(s, productId)
  {
    assert ([x] + s)[0] == x;
    assert ([x] + s)[1..] == s;
  }

  /** Removing twice is removing once. */
  lemma WithoutIdempotent(items: seq<LineItem>, productId: ProductId)
    ensures Without(Without(items, productId), productId) == Without(items, productId)
  {
    WithoutAbsent(Without(items, productId), productId);
  }

  /** The removed items' subtotals are exactly what the total loses. */
  lemma {:induction false} TotalWithout(items: seq<LineItem>, productId: ProductId)
    ensures Total(items) == Total(Without(items, productId)) + Total(Only(items, productId))
  {
    if items != [] {
      var x, tail := items[0], items[1..];
      var kept, gone := Without(tail, productId), Only(tail, productId);
      TotalWithout(tail, productId);
      assert items == [x] + tail;
      TotalConcat([x], tail);
      TotalSingleton(x);
      if x.product == productId {
        assert Without(items, productId) == kept;
        assert Only(items, productId) == [x] + gone;
        TotalConcat([x], gone);
      } else {
        assert Without(items, productId) == [x] + kept;
        assert Only(items, productId) == gone;
        TotalConcat([x], kept);
      }
    }
  }

  lemma TotalSingleton(x: LineItem)
    ensures Total([x]) == Subtotal(x)
  {
    assert [x][..0] == [];
  }

  /** The entries remove drops: those whose product id matches, in order. */
  function Only(items: seq<LineItem>, productId: ProductId): seq<LineItem>
  {
    if items == [] then []
    else (if items[0].product == productId then [items[0]] else []) + Only(items[1..], productId)
  }

  /** Add never creates a second entry for a product; update and remove
      keep the entries' products distinct too. */
  lemma AddedKeepsDistinct(items: seq<LineItem>, productId: ProductId, product: Product, quantity: int)
    requires DistinctProducts(items)
    ensures DistinctProducts(AddedItems(items, productId, product, quantity))
  {
  }

  lemma QuantitySetKeepsDistinct(items: seq<LineItem>, i: nat, quantity: int)
    requires i < |items| && DistinctProducts(items)
    ensures DistinctProducts(QuantitySet(items, i, quantity))
  {
  }

  lemma {:induction false} WithoutKeepsDistinct(items: seq<LineItem>, productId: ProductId)
    requires DistinctProducts(items)
    ensures DistinctProducts(Without(items, productId))
  {
    if items != [] {
      WithoutKeepsDistinct(items[1..], productId);
      var rest := Without(items[1..], productId);
      if items[0].product != productId {
        assert Without(items, productId) == [items[0]] + rest;
        forall j | 0 <= j < |rest|
          ensures rest[j].product != items[0].product
        {
          assert rest[j] in rest;
          WithoutMembership(items[1..], productId, rest[j]);
          var k :| 0 <= k < |items[1..]| && items[1..][k] == rest[j];
          assert items[1 + k] == rest[j];
        }
      }
    }
  }

  /** With distinct products, remove drops exactly the entry findIndex
      finds. */
  lemma WithoutDistinct(items: seq<LineItem>, productId: ProductId)
    requires DistinctProducts(items) && FindItem(items, productId).Some?
    ensures var i := FindItem(items, productId).value;
            Without(items, productId) == items[..i] + items[i + 1..]
  {
    var i := FindItem(items, productId).value;
    var pre, post := items[..i], items[i + 1..];
    assert items == pre + [items[i]] + post;
    forall j | 0 <= j < |post|
      ensures post[j].product != productId
    {
      assert post[j] == items[i + 1 + j];
    }
    WithoutSingleMatch(pre, items[i], post, productId);
  }

  /** Removing from a sequence where only `x` matches leaves the rest. */
  lemma WithoutSingleMatch(pre: seq<LineItem>, x: LineItem, post: seq<LineItem>, productId: ProductId)
    requires x.product == productId
    requires forall j :: 0 <= j < |pre| ==> pre[j].product != productId
    requires forall j :: 0 <= j < |post| ==> post[j].product != productId
    ensures Without(pre + [x] + post, productId) == pre + post
  {
    WithoutConcat(pre + [x], post, productId);
    WithoutConcat(pre, [x], productId);
    WithoutAbsent(pre, productId);
    WithoutAbsent(post, productId);
    assert Without([x], productId) == [] by {
      assert [x][1..] == [];
    }
  }

  /** One place-order entry: `_id` becomes the product reference and
      `imageUrl` the image; name, quantity and price are copied as sent. */
  function ToLineItem(item: ClientItem): LineItem
  {
    LineItem(item.id, item.imageUrl, item.name, item.quantity, item.price)
  }

  /** The items place-order stores: one line item per client item, in
      order, with every field carried across unchecked. */
  function ToLineItems(items: seq<ClientItem>): (r: seq<LineItem>)
    ensures |r| == |items|
    ensures forall i :: 0 <= i < |r| ==>
              && r[i].product == items[i].id
              && r[i].image == items[i].imageUrl
              && r[i].name == items[i].name
              && r[i].quantity == items[i].quantity
              && r[i].price == items[i].price
  {
    if items == [] then [] else [ToLineItem(items[0])] + ToLineItems(items[1..])
  }

  /** The map is a homomorphism over concatenation. */
  lemma {:induction false} ToLineItemsConcat(a: seq<ClientItem>, b: seq<ClientItem>)
    ensures ToLineItems(a + b) == ToLineItems(a) + ToLineItems(b)
  {
    if a == [] {
      assert a + b == b;
    } else {
      assert (a + b)[1..] == a[1..] + b;
      ToLineItemsConcat(a[1..], b);
    }
  }
}
