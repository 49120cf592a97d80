/** The order schema of models/order.js: an owner and a non-empty list of ordered items, each a copy of product data and a quantity. */
module OrderModel {
  import opened Wrappers
  import opened SchemaTypes

  /** The copy of a product that an ordered item carries (no live reference to the product). */
  datatype ProductCopy = ProductCopy(id: ObjectId, name: string, description: Option<string>, price: real)

  datatype OrderedItem = OrderedItem(product: ProductCopy, quantity: int)

  /** A stored, validated order. */
  datatype Order = Order(id: ObjectId, customerId: ObjectId, items: seq<OrderedItem>)

  /** An ordered item as the payload gives it, before validation. */
  datatype ProductCopyFields = ProductCopyFields(id: Option<ObjectId>, name: Option<string>, description: Option<string>, price: Option<NumberInput>)

  datatype OrderedItemFields = OrderedItemFields(product: ProductCopyFields, quantity: Option<NumberInput>)

  const MinItems: nat := 1
  const MinNameLength: nat := 1
  const MinQuantity: real := 1.0

  /** `product._id` required; `product.name` required, trimmed, at least one character; `product.price` required and > 0. */
  predicate ProductCopyValid(p: ProductCopyFields) {
    && p.id.Some?
    && p.name.Some? && |Trim(p.name.value)| >= MinNameLength
    && p.price.Some? && p.price.value.Num? && p.price.value.value > 0.0
  }

  /** `quantity` required, at least 1, and an integer. */
  predicate QuantityValid(q: Option<NumberInput>) {
    q.Some? && q.value.Num? && q.value.value >= MinQuantity && IsInteger(q.value.value)
  }

  predicate ItemValid(it: OrderedItemFields) {
    ProductCopyValid(it.product) && QuantityValid(it.quantity)
  }

  /** `items` required, at least one element, every element valid. */
  predicate ItemsValid(items: Option<seq<OrderedItemFields>>) {
    items.Some? && |items.value| >= MinItems && forall i :: 0 <= i < |items.value| ==> ItemValid(items.value[i])
  }

  /** The whole schema: `customerId` required, and the items rule. */
  predicate FieldsValid(customerId: Option<ObjectId>, items: Option<seq<OrderedItemFields>>) {
    customerId.Some? && ItemsValid(items)
  }

  /** What every stored order satisfies. */
  predicate WellFormed(o: Order) {
    && |o.items| >= MinItems
    && forall i :: 0 <= i < |o.items| ==>
         && o.items[i].quantity >= 1
         && IsTrimmed(o.items[i].product.name) && |o.items[i].product.name| >= MinNameLength
         && o.items[i].product.price > 0.0
  }

  /** A valid ordered item as stored: strings trimmed, quantity as the integer it is. */
  function StoreItem(it: OrderedItemFields): (r: OrderedItem)
    requires ItemValid(it)
    ensures r.product.id == it.product.id.value && r.product.price == it.product.price.value.value
    ensures r.quantity as real == it.quantity.value.value && r.quantity >= 1
    ensures r.product.name == Trim(it.product.name.value) && r.product.description == TrimOpt(it.product.description)
  {
    OrderedItem(ProductCopy(it.product.id.value, Trim(it.product.name.value), TrimOpt(it.product.description),
                            it.product.price.value.value),
                it.quantity.value.value.Floor)
  }

  /** `save` of a new order: succeeds exactly when the schema holds; the stored items are the payload's, in order. */
  function Save(id: ObjectId, customerId: Option<ObjectId>, items: Option<seq<OrderedItemFields>>): (r: Result<Order, ValidationError>)
    ensures r.Success? <==> FieldsValid(customerId, items)
    ensures r.Success? ==> && r.value.id == id && r.value.customerId == customerId.value
                           && |r.value.items| == |items.value|
                           && (forall i :: 0 <= i < |items.value| ==> r.value.items[i] == StoreItem(items.value[i]))
                           && WellFormed(r.value)
  {
    if FieldsValid(customerId, items) then
      var stored := seq(|items.value|, i requires 0 <= i < |items.value| => StoreItem(items.value[i]));
      Success(Order(id, customerId.value, stored))
    else
      Failure(ValidationFailed("Order"))
  }

  /** An order without an owner, without items or with an empty item list is refused. */
  lemma SaveRejectsMissing(id: ObjectId, customerId: Option<ObjectId>, items: Option<seq<OrderedItemFields>>)
    requires customerId.None? || items.None? || items == Some([])
    ensures Save(id, customerId, items).Failure?
  {
  }

  /** One item with a missing or bad product id, name, price or quantity makes the whole order fail. */
  lemma SaveRejectsItem(id: ObjectId, customerId: Option<ObjectId>, items: seq<OrderedItemFields>, k: nat)
    requires k < |items|
    requires var it := items[k];
             || it.product.id.None?
             || it.product.name.None? || Trim(it.product.name.value) == ""
             || it.product.price.None? || it.product.price.value.NotANumber? || it.product.price.value.value <= 0.0
             || it.quantity.None? || it.quantity.value.NotANumber? || it.quantity.value.value < 1.0
             || !IsInteger(it.quantity.value.value)
    ensures Save(id, customerId, Some(items)).Failure?
  {
    assert !ItemValid(items[k]);
  }
}
