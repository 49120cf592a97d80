/** controllers/products.js: the operations on the product collection. */
module ProductsController {
  import opened Wrappers
  import opened SchemaTypes
  import opened ProductModel
  import opened Requests
  import opened ResponseUtils
  import opened Collections

  function IdOf(p: Product): (id: ObjectId) {
    p.id
  }

  /** findById over products; an undefined id finds nothing. */
  function IndexOfId(products: seq<Product>, id: Option<ObjectId>): (r: Option<nat>)
    ensures r.Some? ==> r.value < |products| && Some(products[r.value].id) == id
    ensures r.None? <==> forall p :: p in products ==> Some(p.id) != id
  {
    if id.None? then None else FindIndex(products, (p: Product) => p.id == id.value)
  }

  /** The keys of a stored product's plain object, apart from `_id` and `__v`: optional fields appear only when set. */
  datatype Key = NameKey | PriceKey | ImageKey | DescriptionKey

  function ObjectKeys(p: Product): (ks: seq<Key>)
    ensures NameKey in ks && PriceKey in ks
    ensures ImageKey in ks <==> p.image.Some?
    ensures DescriptionKey in ks <==> p.description.Some?
  {
    [NameKey, PriceKey] + (if p.image.Some? then [ImageKey] else []) + (if p.description.Some? then [DescriptionKey] else [])
  }

  /** `productData[key] !== undefined`. */
  predicate Defined(data: Body, k: Key) {
    match k
    case NameKey => data.name.Some?
    case PriceKey => data.price.Some?
    case ImageKey => data.image.Some?
    case DescriptionKey => data.description.Some?
  }

  /** `viewingProduct[key] = productData[key]`. */
  function Assign(doc: ProductFields, data: Body, k: Key): (f: ProductFields) {
    match k
    case NameKey => doc.(name := data.name)
    case PriceKey => doc.(price := data.price)
    case ImageKey => doc.(image := data.image)
    case DescriptionKey => doc.(description := data.description)
  }

  /** The document after the loop body has run for each key of `ks`, in order. */
  function AssignKeys(doc: ProductFields, data: Body, ks: seq<Key>): (f: ProductFields)
    decreases |ks|
  {
    if ks == [] then doc
    else
      var before := AssignKeys(doc, data, ks[..|ks| - 1]);
      var k := ks[|ks| - 1];
      if Defined(data, k) then Assign(before, data, k) else before
  }

  /**
   * The partial update, field by field: a field takes the payload's value exactly when the
   * product already has that field and the payload defines it; every other field keeps its value.
   */
  function Merge(p: Product, data: Body): (f: ProductFields)
  {
    ProductFields(
      if data.name.Some? then data.name else Some(p.name),
      if data.price.Some? then data.price else Some(Num(p.price)),
      if p.image.Some? && data.image.Some? then data.image else p.image,
      if p.description.Some? && data.description.Some? then data.description else p.description)
  }

  lemma AssignKeysStep(doc: ProductFields, data: Body, ks: seq<Key>, k: Key)
    ensures AssignKeys(doc, data, ks + [k]) == if Defined(data, k) then Assign(AssignKeys(doc, data, ks), data, k) else AssignKeys(doc, data, ks)
  {
    assert (ks + [k])[..|ks|] == ks;
  }

  /** After the loop over `ks`, a field holds the payload's value exactly when its key is in `ks` and the payload defines it. */
  lemma {:induction false} AssignKeysFields(doc: ProductFields, data: Body, ks: seq<Key>)
    ensures AssignKeys(doc, data, ks).name == if NameKey in ks && data.name.Some? then data.name else doc.name
    ensures AssignKeys(doc, data, ks).price == if PriceKey in ks && data.price.Some? then data.price else doc.price
    ensures AssignKeys(doc, data, ks).image == if ImageKey in ks && data.image.Some? then data.image else doc.image
    ensures AssignKeys(doc, data, ks).description ==
              if DescriptionKey in ks && data.description.Some? then data.description else doc.description
    decreases |ks|
  {
    if ks != [] {
      var init := ks[..|ks| - 1];
      AssignKeysFields(doc, data, init);
      assert ks == init + [ks[|ks| - 1]];
      assert forall k :: k in ks <==> k in init || k == ks[|ks| - 1];
    }
  }

  /** Running the loop over the product's own keys gives the merge. */
  lemma AssignAllKeys(p: Product, data: Body)
    ensures AssignKeys(ToFields(p), data, ObjectKeys(p)) == Merge(p, data)
  {
    AssignKeysFields(ToFields(p), data, ObjectKeys(p));
  }

  /** The loop of updateProduct: every own key of the product that the payload defines is assigned from it. */
  method AssignOwnKeys(p: Product, data: Body) returns (doc: ProductFields)
    ensures doc == Merge(p, data)
  {
    doc := ToFields(p);
    var keys := ObjectKeys(p);
    var k := 0;
    while k < |keys|
      invariant 0 <= k <= |keys|
      invariant doc == AssignKeys(ToFields(p), data, keys[..k])
    {
      AssignKeysStep(ToFields(p), data, keys[..k], keys[k]);
      assert keys[..k + 1] == keys[..k] + [keys[k]];
      if Defined(data, keys[k]) {
        doc := Assign(doc, data, keys[k]);
      }
      k := k + 1;
    }
    assert keys[..k] == keys;
    AssignAllKeys(p, data);
  }

  /** Every stored product satisfies the schema. */
  ghost predicate AllWellFormed(s: seq<Product>, uri: string -> bool) {
    forall i :: 0 <= i < |s| ==> WellFormed(s[i], uri)
  }

  lemma AllWellFormedRemove(s: seq<Product>, uri: string -> bool, i: nat)
    requires AllWellFormed(s, uri) && i < |s|
    ensures AllWellFormed(s[..i] + s[i + 1..], uri)
  {
    var r := s[..i] + s[i + 1..];
    forall j | 0 <= j < |r| ensures WellFormed(r[j], uri) {
      if j < i { assert r[j] == s[j]; } else { assert r[j] == s[j + 1]; }
    }
  }

  lemma AllWellFormedReplace(s: seq<Product>, uri: string -> bool, i: nat, x: Product)
    requires AllWellFormed(s, uri) && i < |s| && WellFormed(x, uri)
    ensures AllWellFormed(s[i := x], uri)
  {
  }

  lemma AllWellFormedAppend(s: seq<Product>, uri: string -> bool, x: Product)
    requires AllWellFormed(s, uri) && WellFormed(x, uri)
    ensures AllWellFormed(s + [x], uri)
  {
  }

  /** A field the product has and the payload defines takes the payload's value. */
  lemma MergeTakesDefined(p: Product, data: Body)
    ensures data.name.Some? ==> Merge(p, data).name == data.name
    ensures data.price.Some? ==> Merge(p, data).price == data.price
    ensures data.image.Some? && p.image.Some? ==> Merge(p, data).image == data.image
    ensures data.description.Some? && p.description.Some? ==> Merge(p, data).description == data.description
  {
  }

  /** Every field of the merge other than those the payload defines is the stored one: an update is partial. */
  lemma MergeKeepsUndefined(p: Product, data: Body)
    ensures data.name.None? ==> Merge(p, data).name == Some(p.name)
    ensures data.price.None? ==> Merge(p, data).price == Some(Num(p.price))
    ensures data.image.None? || p.image.None? ==> Merge(p, data).image == p.image
    ensures data.description.None? || p.description.None? ==> Merge(p, data).description == p.description
  {
  }

  /** The document `new Product(productData)` builds from the body. */
  function NewProductFields(data: Body): (f: ProductFields) {
    ProductFields(data.name, data.price, data.image, data.description)
  }

  /** getAllProducts: 200 with every stored product, in collection order, as JSON. */
  predicate GetAllProductsSpec(products: seq<Product>, r: Response) {
    r == SendJson(ProductList(products), 200)
  }

  /** viewProduct: 404 for an unknown id, otherwise 200 with the product. */
  ghost predicate ViewProductSpec(products: seq<Product>, productId: Option<ObjectId>, r: Response) {
    && ((forall p :: p in products ==> Some(p.id) != productId) ==> r == NotFound())
    && (forall p :: p in products && Some(p.id) == productId ==> r == SendJson(ProductDoc(p), 200))
  }

  /** deleteProduct, from `before` to `after`: 404 for an unknown id; otherwise exactly that product is removed and returned with 200. */
  ghost predicate DeleteProductSpec(before: seq<Product>, after: seq<Product>, productId: Option<ObjectId>, r: Response) {
    && ((forall p :: p in before ==> Some(p.id) != productId) ==> r == NotFound() && after == before)
    && (forall i :: 0 <= i < |before| && Some(before[i].id) == productId ==>
          && r == SendJson(ProductDoc(before[i]), 200)
          && after == before[..i] + before[i + 1..]
          && |after| == |before| - 1
          && (forall x :: x in after <==> x in before && Some(x.id) != productId))
  }

  /**
   * updateProduct, from `before` to `after`: 404 for an unknown id; otherwise the payload is
   * merged over the product's existing keys and saved: 200 with the saved product in place of the
   * old one, or 400 with the collection unchanged.
   */
  ghost predicate UpdateProductSpec(before: seq<Product>, after: seq<Product>, productId: Option<ObjectId>,
                                    productData: Body, uri: string -> bool, r: Response) {
    && ((forall p :: p in before ==> Some(p.id) != productId) ==> r == NotFound() && after == before)
    && (forall i :: 0 <= i < |before| && Some(before[i].id) == productId ==>
          match Save(before[i].id, Merge(before[i], productData), uri)
          case Success(saved) => after == before[i := saved] && r == SendJson(ProductDoc(saved), 200)
          case Failure(e) => r == BadRequest(Some(Invalid(e))) && after == before)
  }

  /** addProduct, from `before` to `after`: valid data is appended as a new product and returned with 201; invalid data is 400 and adds nothing. */
  predicate AddProductSpec(before: seq<Product>, after: seq<Product>, productData: Body, newId: ObjectId,
                           uri: string -> bool, r: Response) {
    match Save(newId, NewProductFields(productData), uri)
    case Success(p) => after == before + [p] && r == CreatedResource(ProductDoc(p))
    case Failure(e) => r == BadRequest(Some(Invalid(e))) && after == before
  }

  class ProductStore {
    /** The product collection in natural order. */
    var products: seq<Product>
    /** The image URI pattern of the product schema. */
    const uri: string -> bool

    ghost predicate Valid()
      reads this
    {
      Unique(products, IdOf) && AllWellFormed(products, uri)
    }

    constructor (initial: seq<Product>, uri: string -> bool)
      requires Unique(initial, IdOf) && AllWellFormed(initial, uri)
      ensures Valid() && products == initial && this.uri == uri
    {
      products := initial;
      this.uri := uri;
    }

    method GetAllProducts() returns (r: Response)
      ensures GetAllProductsSpec(products, r)
      ensures r.status == 200 && r.headers == map["Content-Type" := "application/json"]
    {
      r := SendJson(ProductList(products), 200);
    }

    method ViewProduct(productId: Option<ObjectId>) returns (r: Response)
      requires Valid()
      ensures ViewProductSpec(products, productId, r)
    {
      var found := IndexOfId(products, productId);
      if found.None? {
        return NotFound();
      }
      r := SendJson(ProductDoc(products[found.value]), 200);
      forall p | p in products && Some(p.id) == productId ensures p == products[found.value] {
        UniqueAt(products, IdOf, found.value, p);
      }
    }

    method DeleteProduct(productId: Option<ObjectId>) returns (r: Response)
      requires Valid()
      modifies this
      ensures Valid()
      ensures DeleteProductSpec(old(products), products, productId, r)
    {
      var found := IndexOfId(products, productId);
      if found.None? {
        return NotFound();
      }
      var i := found.value;
      var viewingProduct := products[i];
      RemoveAtKey(products, IdOf, i);
      AllWellFormedRemove(products, uri, i);
      forall k | 0 <= k < |products| && Some(products[k].id) == productId ensures k == i {
        assert IdOf(products[k]) == IdOf(products[i]);
      }
      products := products[..i] + products[i + 1..];
      r := SendJson(ProductDoc(viewingProduct), 200);
    }

    method UpdateProduct(productId: Option<ObjectId>, productData: Body) returns (r: Response)
      requires Valid()
      modifies this
      ensures Valid()
      ensures UpdateProductSpec(old(products), products, productId, productData, uri, r)
    {
      var found := IndexOfId(products, productId);
      if found.None? {
        return NotFound();
      }
      var i := found.value;
      var viewingProduct := products[i];
      var doc := AssignOwnKeys(viewingProduct, productData);
      forall j | 0 <= j < |products| && Some(products[j].id) == productId ensures j == i {
        assert IdOf(products[j]) == IdOf(products[i]);
      }
      match Save(viewingProduct.id, doc, uri)
      case Success(saved) =>
        ReplaceSameKey(products, IdOf, i, saved);
        AllWellFormedReplace(products, uri, i, saved);
        products := products[i := saved];
        r := SendJson(ProductDoc(saved), 200);
      case Failure(e) =>
        r := BadRequest(Some(Invalid(e)));
    }

    method AddProduct(productData: Body, newId: ObjectId) returns (r: Response)
      requires Valid()
      requires forall p :: p in products ==> p.id != newId
      modifies this
      ensures Valid()
      ensures AddProductSpec(old(products), products, productData, newId, uri, r)
    {
      match Save(newId, NewProductFields(productData), uri)
      case Success(p) =>
        AppendFreshKey(products, IdOf, p);
        AllWellFormedAppend(products, uri, p);
        products := products + [p];
        r := CreatedResource(ProductDoc(p));
      case Failure(e) =>
        r := BadRequest(Some(Invalid(e)));
    }
  }
}
