/** The product handlers of the REST API: the request checks of create and
    update, and create, read, update and delete over the product collection,
    which is a store keyed by product id. */
module ProductController {
  import opened JsSemantics

  /** The six fields the handlers read from `req.body`; `None` is a field
      the body does not have. Prices are whole numbers of cents. */
  datatype ProductBody = ProductBody(
    name: Option<string>,
    description: Option<string>,
    price: Option<int>,
    category: Option<string>,
    stock: Option<int>,
    images: Option<seq<string>>)

  /** A stored product. */
  datatype Product = Product(
    name: string,
    description: string,
    price: int,
    category: string,
    stock: int,
    images: seq<string>)

  /** Why a handler answered with an error. */
  datatype Failure =
    | MissingFields      // 400 "All fields are required"
    | NegativeValues     // 400 "Price and stock must be non-negative"
    | SchemaRejected     // 400 with the message of the database's validation error
    | NotFound           // 404 "Product not found"

  function Status(f: Failure): (code: int)
    ensures code == 404 <==> f == NotFound
    ensures f != NotFound ==> code == 400
  {
    if f == NotFound then 404 else 400
  }

  datatype Result<T> = Ok(value: T) | Err(failure: Failure)

  /** JavaScript truthiness of the fields: an absent field, the empty
      string and the number 0 are falsy; an array is truthy even when
      it is empty. */
  predicate TruthyText(v: Option<string>) { v.Some? && v.value != "" }
  predicate TruthyNumber(v: Option<int>) { v.Some? && v.value != 0 }

  predicate AllFieldsTruthy(b: ProductBody)
  {
    TruthyText(b.name) && TruthyText(b.description) && TruthyNumber(b.price)
    && TruthyText(b.category) && TruthyNumber(b.stock) && b.images.Some?
  }

  /** The two checks at the top of `createProduct` and `updateProduct`, in
      their order: every field truthy, then price and stock not negative.
      Because 0 is falsy, a price or stock of 0 is reported as missing, and
      what gets through has a price and a stock of at least 1. */
  function CheckBody(b: ProductBody): (r: Option<Failure>)
    ensures r == Some(MissingFields) <==>
      b.name.None? || b.name.value == "" || b.description.None? || b.description.value == ""
      || b.price.None? || b.price.value == 0 || b.category.None? || b.category.value == ""
      || b.stock.None? || b.stock.value == 0 || b.images.None?
    ensures r == Some(NegativeValues) <==>
      AllFieldsTruthy(b) && (b.price.value < 0 || b.stock.value < 0)
    ensures r.None? <==>
      b.name.Some? && b.name.value != "" && b.description.Some? && b.description.value != ""
      && b.category.Some? && b.category.value != "" && b.images.Some?
      && b.price.Some? && b.price.value >= 1 && b.stock.Some? && b.stock.value >= 1
    ensures r != Some(SchemaRejected) && r != Some(NotFound)
  {
    if !AllFieldsTruthy(b) then Some(MissingFields)
    else if b.price.value < 0 || b.stock.value < 0 then Some(NegativeValues)
    else None
  }

  /** The document built from an accepted body. */
  function ToProduct(b: ProductBody): (p: Product)
    requires CheckBody(b).None?
    ensures p.price >= 1 && p.stock >= 1
    ensures Some(p.name) == b.name && Some(p.price) == b.price && Some(p.stock) == b.stock
    ensures Some(p.description) == b.description && Some(p.category) == b.category
    ensures Some(p.images) == b.images
  {
    Product(b.name.value, b.description.value, b.price.value, b.category.value, b.stock.value, b.images.value)
  }

  /** A price or a stock of 0 is caught by the first check, never by the
      second. */
  lemma ZeroIsMissing(b: ProductBody)
    requires b.price == Some(0) || b.stock == Some(0)
    ensures CheckBody(b) == Some(MissingFields)
  {
  }

  /** Every product the handlers have stored has a price and a stock of at
      least 1. */
  ghost predicate AllPositive(products: map<string, Product>)
  {
    forall id :: id in products ==> products[id].price >= 1 && products[id].stock >= 1
  }

  /** The product collection. */
  class ProductStore {
    var products: map<string, Product>

    ghost predicate Valid()
      reads this
    {
      AllPositive(products)
    }

    constructor ()
      ensures Valid() && products == map[]
    {
      products := map[];
    }

    /** `createProduct`. The database assigns the fresh id `newId`;
        `schemaAccepts` is the outcome of the model's own validation on
        `save`, which this store does not see. */
    method Create(body: ProductBody, newId: string, schemaAccepts: bool) returns (r: Result<Product>)
      requires Valid()
      requires newId !in products
      modifies this
      ensures Valid()
      ensures CheckBody(body).Some? ==> r == Err(CheckBody(body).value) && products == old(products)
      ensures CheckBody(body).None? && !schemaAccepts ==> r == Err(SchemaRejected) && products == old(products)
      ensures CheckBody(body).None? && schemaAccepts ==>
        r == Ok(ToProduct(body)) && products == old(products)[newId := ToProduct(body)]
    {
      var check := CheckBody(body);
      if check.Some? {
        return Err(check.value);
      }
      if !schemaAccepts {
        return Err(SchemaRejected);
      }
      var product := ToProduct(body);
      products := products[newId := product];
      r := Ok(product);
    }

    /** `getAllProducts`: every stored product, each with its id. */
    method GetAll() returns (all: map<string, Product>)
      ensures all.Keys == products.Keys
      ensures forall id :: id in all ==> all[id] == products[id]
    {
      all := products;
    }

    /** `getProductById`. */
    method GetById(id: string) returns (r: Result<Product>)
      ensures r.Err? <==> id !in products
      ensures r.Err? ==> r.failure == NotFound && Status(r.failure) == 404
      ensures r.Ok? ==> r.value == products[id]
    {
      if id !in products {
        return Err(NotFound);
      }
      r := Ok(products[id]);
    }

    /** `updateProduct`: the same two checks as `Create`, in the same order,
        then the database's validation, then the lookup. The six checked
        fields replace the stored ones. */
    method Update(id: string, body: ProductBody, schemaAccepts: bool) returns (r: Result<Product>)
      requires Valid()
      modifies this
      ensures Valid()
      ensures CheckBody(body).Some? ==> r == Err(CheckBody(body).value) && products == old(products)
      ensures CheckBody(body).None? && !schemaAccepts ==> r == Err(SchemaRejected) && products == old(products)
      ensures CheckBody(body).None? && schemaAccepts && id !in old(products) ==>
        r == Err(NotFound) && products == old(products)
      ensures CheckBody(body).None? && schemaAccepts && id in old(products) ==>
        r == Ok(ToProduct(body)) && products == old(products)[id := ToProduct(body)]
    {
      var check := CheckBody(body);
      if check.Some? {
        return Err(check.value);
      }
      if !schemaAccepts {
        return Err(SchemaRejected);
      }
      if id !in products {
        return Err(NotFound);
      }
      var product := ToProduct(body);
      products := products[id := product];
      r := Ok(product);
    }

    /** `deleteProduct`. */
    method Delete(id: string) returns (r: Result<()>)
      requires Valid()
      modifies this
      ensures Valid()
      ensures id !in old(products) ==> r == Err(NotFound) && products == old(products)
      ensures id in old(products) ==> r == Ok(()) && products == old(products) - {id}
    {
      if id !in products {
        return Err(NotFound);
      }
      products := products - {id};
      r := Ok(());
    }
  }
}
