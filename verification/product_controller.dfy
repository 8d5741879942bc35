/** The catalog handlers: create, look up, partially update and delete a
    product. The store is a map from product id to product. */
module ProductController {
  import opened Base

  /** A catalog product; `price` is in cents. */
  datatype Product = Product(
    name: string,
    description: string,
    price: int,
    countInStock: int,
    imageUrl: string,
    category: string)

  type Catalog = map<ProductId, Product>

  /** The six fields of an update request body; `None` is a field that is
      missing or null. */
  datatype ProductBody = ProductBody(
    name: Option<string>,
    description: Option<string>,
    price: Option<int>,
    countInStock: Option<int>,
    imageUrl: Option<string>,
    category: Option<string>)

  /** What a handler leaves in the store and what it answers. */
  datatype CatalogStep<T> = CatalogStep(catalog: Catalog, reply: Result<T>)

  /** JavaScript truthiness of an optional string: missing, null and "" are falsy. */
  predicate TruthyString(v: Option<string>) {
    v.Some? && v.value != ""
  }

  /** JavaScript truthiness of an optional number: missing, null and 0 are falsy. */
  predicate TruthyNumber(v: Option<int>) {
    v.Some? && v.value != 0
  }

  /** `v || current` on strings. */
  function OrString(v: Option<string>, current: string): (r: string)
    ensures TruthyString(v) ==> r == v.value && r != ""
    ensures !TruthyString(v) ==> r == current
  {
    if TruthyString(v) then v.value else current
  }

  /** `v || current` on numbers. */
  function OrNumber(v: Option<int>, current: int): (r: int)
    ensures TruthyNumber(v) ==> r == v.value && r != 0
    ensures !TruthyNumber(v) ==> r == current
  {
    if TruthyNumber(v) then v.value else current
  }

  /** The field-by-field merge of `updateProduct`: a field takes the request's
      value exactly when that value is truthy. */
  function Merge(p: Product, body: ProductBody): (r: Product)
    ensures r.name == (if TruthyString(body.name) then body.name.value else p.name)
    ensures r.description == (if TruthyString(body.description) then body.description.value else p.description)
    ensures r.price == (if TruthyNumber(body.price) then body.price.value else p.price)
    ensures r.countInStock == (if TruthyNumber(body.countInStock) then body.countInStock.value else p.countInStock)
    ensures r.imageUrl == (if TruthyString(body.imageUrl) then body.imageUrl.value else p.imageUrl)
    ensures r.category == (if TruthyString(body.category) then body.category.value else p.category)
  {
    Product(
      OrString(body.name, p.name),
      OrString(body.description, p.description),
      OrNumber(body.price, p.price),
      OrNumber(body.countInStock, p.countInStock),
      OrString(body.imageUrl, p.imageUrl),
      OrString(body.category, p.category))
  }

  /** `createProduct`: stores the six supplied fields under a new id chosen by
      the database and answers with the stored product. */
  function CreateProduct(catalog: Catalog, id: ProductId, fields: Product): (r: CatalogStep<Product>)
    ensures r.reply == Ok(fields)
    ensures r.catalog.Keys == catalog.Keys + {id}
    ensures id in r.catalog && r.catalog[id].name == fields.name
      && r.catalog[id].description == fields.description && r.catalog[id].price == fields.price
      && r.catalog[id].countInStock == fields.countInStock && r.catalog[id].imageUrl == fields.imageUrl
      && r.catalog[id].category == fields.category
    ensures forall k :: k in catalog && k != id ==> r.catalog[k] == catalog[k]
  {
    CatalogStep(catalog[id := fields], Ok(fields))
  }

  /** `getProductById`. */
  function GetProductById(catalog: Catalog, id: ProductId): (r: Result<Product>)
    ensures r.Ok? <==> id in catalog
    ensures r.Ok? ==> r.value == catalog[id]
    ensures r.Err? ==> r.error == NotFound
  {
    if id in catalog then Ok(catalog[id]) else Err(NotFound)
  }

  /** `updateProduct`: a missing id fails with NotFound and changes nothing;
      otherwise the stored product becomes the truthy merge of the request. */
  function UpdateProduct(catalog: Catalog, id: ProductId, body: ProductBody): (r: CatalogStep<Product>)
    ensures id !in catalog ==> r == CatalogStep(catalog, Err(NotFound))
    ensures id in catalog ==> r.reply.Ok? && r.catalog == catalog[id := r.reply.value]
    ensures id in catalog ==> r.reply.value == Merge(catalog[id], body)
    ensures r.catalog.Keys == catalog.Keys
  {
    if id in catalog then
      var updated := Merge(catalog[id], body);
      CatalogStep(catalog[id := updated], Ok(updated))
    else
      CatalogStep(catalog, Err(NotFound))
  }

  /** `deleteProduct`: a missing id fails with NotFound and changes nothing;
      otherwise the product is removed and nothing else is touched (no cascade
      to carts or orders). */
  function DeleteProduct(catalog: Catalog, id: ProductId): (r: CatalogStep<()>)
    ensures id !in catalog ==> r == CatalogStep(catalog, Err(NotFound))
    ensures id in catalog ==> r.reply.Ok?
    ensures r.catalog.Keys == catalog.Keys - {id}
    ensures forall k :: k in r.catalog ==> r.catalog[k] == catalog[k]
  {
    if id in catalog then CatalogStep(catalog - {id}, Ok(())) else CatalogStep(catalog, Err(NotFound))
  }

  /** Reading a product back after each write: a created product is found
      with exactly its supplied fields, an updated one as the truthy merge,
      and a deleted one is gone. */
  lemma ReadBackAfterWrites(catalog: Catalog, id: ProductId, fields: Product, body: ProductBody)
    ensures GetProductById(CreateProduct(catalog, id, fields).catalog, id) == Ok(fields)
    ensures id in catalog ==>
      GetProductById(UpdateProduct(catalog, id, body).catalog, id) == Ok(Merge(catalog[id], body))
    ensures GetProductById(DeleteProduct(catalog, id).catalog, id) == Err(NotFound)
  {
  }

  /** Writes to one id leave every other id reading as before. */
  lemma WritesLeaveOtherIds(catalog: Catalog, id: ProductId, other: ProductId, fields: Product, body: ProductBody)
    requires other != id
    ensures GetProductById(CreateProduct(catalog, id, fields).catalog, other) == GetProductById(catalog, other)
    ensures GetProductById(UpdateProduct(catalog, id, body).catalog, other) == GetProductById(catalog, other)
    ensures GetProductById(DeleteProduct(catalog, id).catalog, other) == GetProductById(catalog, other)
  {
  }

  /** An update whose fields are all missing, null, 0 or "" leaves the product
      and the whole catalog as they were. */
  lemma FalsyUpdateIsNoOp(catalog: Catalog, id: ProductId, body: ProductBody)
    requires id in catalog
    requires !TruthyString(body.name) && !TruthyString(body.description) && !TruthyNumber(body.price)
    requires !TruthyNumber(body.countInStock) && !TruthyString(body.imageUrl) && !TruthyString(body.category)
    ensures UpdateProduct(catalog, id, body) == CatalogStep(catalog, Ok(catalog[id]))
  {
    assert catalog[id := catalog[id]] == catalog;
  }

  /** A zero price or zero stock can be stored by `createProduct` but never
      set through `updateProduct`: an update cannot make a non-zero price or
      stock zero. */
  lemma ZeroCannotBeSetByUpdate(catalog: Catalog, id: ProductId, body: ProductBody)
    requires id in catalog
    ensures catalog[id].price != 0 ==> UpdateProduct(catalog, id, body).catalog[id].price != 0
    ensures catalog[id].countInStock != 0 ==> UpdateProduct(catalog, id, body).catalog[id].countInStock != 0
  {
  }

  /** A product created with price 0 keeps it, while the same 0 in an update
      body keeps the previous price. */
  lemma ZeroPriceOnlyAtCreate(catalog: Catalog, id: ProductId, fields: Product, body: ProductBody)
    requires fields.price == 0 && catalog == map[]
    requires body == ProductBody(None, None, Some(0), None, None, None)
    ensures CreateProduct(catalog, id, fields).catalog[id].price == 0
    ensures UpdateProduct(CreateProduct(catalog, id, fields.(price := 500)).catalog, id, body).catalog[id].price == 500
  {
  }
}
