/** The Order document of the store (models/Order.js): a placed order or a
    shopping cart, told apart only by `status`. Fields the schema marks
    `required` are plain (always present) in these types; optional ones are
    `Option`s. */
module OrderModel {
  import opened Common

  type ProductId = string

  /** One entry of `items`: the product reference plus the name, image and
      price snapshot taken when the entry was made. Prices are whole minor
      units (cents). */
  datatype LineItem = LineItem(
    product: ProductId,
    image: Option<string>,
    name: Option<string>,
    quantity: int,
    price: int)

  /** The flat, wholly optional shipping sub-document. */
  datatype ShippingInfo = ShippingInfo(
    name: Option<string>,
    email: Option<string>,
    address: Option<string>,
    city: Option<string>,
    country: Option<string>)

  /** `status` is None when the document was built without one; the schema
      default then applies. The creation timestamp is not modelled. */
  datatype Order = Order(
    user: UserId,
    items: seq<LineItem>,
    shippingInfo: Option<ShippingInfo>,
    totalAmount: int,
    status: Option<string>)

  /** The values the schema's `enum` admits for `status`. */
  const StatusValues: set<string> := {"Pending", "Processing", "Shipped", "Delivered", "Cancelled"}

  const DefaultStatus: string := "Pending"

  /** The status a document carries once the schema default is applied. */
  function EffectiveStatus(o: Order): string
  {
    match o.status
    case Some(s) => s
    case None => DefaultStatus
  }

  /** `quantity` carries `min: 1`. */
  predicate ItemValid(item: LineItem)
  {
    item.quantity >= 1
  }

  /** What schema validation on save accepts. */
  predicate SchemaValid(o: Order)
  {
    && (forall i :: 0 <= i < |o.items| ==> ItemValid(o.items[i]))
    && EffectiveStatus(o) in StatusValues
  }

  /** A document built without a status is a Pending one, and it passes
      validation exactly when every line item does. */
  lemma DefaultStatusIsPending(o: Order)
    requires o.status.None?
    ensures EffectiveStatus(o) == "Pending"
    ensures SchemaValid(o) <==> forall i :: 0 <= i < |o.items| ==> o.items[i].quantity >= 1
  {
  }

  /** The enumeration leaves out "Cart": no document whose status is "Cart"
      ever passes schema validation, whatever its items. */
  lemma CartStatusFailsSchema(o: Order)
    requires o.status == Some("Cart")
    ensures !SchemaValid(o)
  {
    assert "Cart" !in StatusValues;
  }

  /** A line item whose quantity is zero or negative makes the whole
      document fail validation. */
  lemma NonPositiveQuantityFailsSchema(o: Order, i: nat)
    requires i < |o.items| && o.items[i].quantity < 1
    ensures !SchemaValid(o)
  {
    assert !ItemValid(o.items[i]);
  }
}
