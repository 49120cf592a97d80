/** The product schema of models/product.js and what its `save` accepts. */
module ProductModel {
  import opened Wrappers
  import opened SchemaTypes

  /** A stored, validated product. */
  datatype Product = Product(id: ObjectId, name: string, price: real, image: Option<string>, description: Option<string>)

  /** The fields of a product document before `save` validates them (after the payload was written into it). */
  datatype ProductFields = ProductFields(name: Option<string>, price: Option<NumberInput>, image: Option<string>, description: Option<string>)

  const MinNameLength: nat := 1
  const MinPrice: real := 0.0

  /** `name`: required, trimmed, at least one character. */
  predicate NameValid(name: Option<string>) {
    name.Some? && |Trim(name.value)| >= MinNameLength
  }

  /** `price`: required, a Number, strictly greater than the minimum price 0. */
  predicate PriceValid(price: Option<NumberInput>) {
    price.Some? && price.value.Num? && price.value.value > MinPrice
  }

  /**
   * `image`: optional and trimmed; a non-empty value must match the URI pattern, here the
   * abstract predicate `uri` (the mapper does not apply `match` to an empty string).
   */
  predicate ImageValid(image: Option<string>, uri: string -> bool) {
    image.None? || Trim(image.value) == "" || uri(Trim(image.value))
  }

  /** The whole schema; `description` is optional and has no validator. */
  predicate FieldsValid(f: ProductFields, uri: string -> bool) {
    NameValid(f.name) && PriceValid(f.price) && ImageValid(f.image, uri)
  }

  /** What every stored product satisfies: the schema's rules hold and the string fields are trimmed. */
  predicate WellFormed(p: Product, uri: string -> bool) {
    && IsTrimmed(p.name) && |p.name| >= MinNameLength
    && p.price > MinPrice
    && (p.image.None? || (IsTrimmed(p.image.value) && (p.image.value == "" || uri(p.image.value))))
    && (p.description.None? || IsTrimmed(p.description.value))
  }

  /** A stored product seen as document fields again (what `findById` hands to the controller). */
  function ToFields(p: Product): (f: ProductFields) {
    ProductFields(Some(p.name), Some(Num(p.price)), p.image, p.description)
  }

  /** `save`: succeeds exactly when the schema holds, and then stores the trimmed values. */
  function Save(id: ObjectId, f: ProductFields, uri: string -> bool): (r: Result<Product, ValidationError>)
    ensures r.Success? <==> FieldsValid(f, uri)
    ensures r.Success? ==> && r.value.id == id && WellFormed(r.value, uri)
                           && r.value.name == Trim(f.name.value) && r.value.price == f.price.value.value
                           && r.value.image == TrimOpt(f.image) && r.value.description == TrimOpt(f.description)
  {
    if FieldsValid(f, uri) then
      Success(Product(id, Trim(f.name.value), f.price.value.value, TrimOpt(f.image), TrimOpt(f.description)))
    else
      Failure(ValidationFailed("Product"))
  }

  /** Saving a stored product again, unchanged, succeeds and gives back the same product. */
  lemma SaveStoredProduct(p: Product, uri: string -> bool)
    requires WellFormed(p, uri)
    ensures Save(p.id, ToFields(p), uri) == Success(p)
  {
    SaveStoredFields(p, uri);
  }

  /** A stored product's fields pass the schema again, and trimming leaves its strings as they are. */
  lemma SaveStoredFields(p: Product, uri: string -> bool)
    requires WellFormed(p, uri)
    ensures FieldsValid(ToFields(p), uri)
    ensures Trim(p.name) == p.name && TrimOpt(p.image) == p.image && TrimOpt(p.description) == p.description
  {
    TrimOfTrimmed(p.name);
    if p.image.Some? {
      TrimOfTrimmed(p.image.value);
    }
    if p.description.Some? {
      TrimOfTrimmed(p.description.value);
    }
  }

  /** The schema rejects a blank or missing name, and a missing, non-numeric, zero or negative price. */
  lemma SaveRejects(id: ObjectId, f: ProductFields, uri: string -> bool)
    requires f.name.None? || Trim(f.name.value) == ""
          || f.price.None? || f.price.value.NotANumber? || f.price.value.value <= 0.0
    ensures Save(id, f, uri).Failure?
  {
  }
}
