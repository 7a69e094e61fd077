/** The client-side product cache: one `products` list that the four store
    methods update in place. Each HTTP call is abstracted as an input
    outcome: the reply's body, or a transport failure. */
module ProductStore {
  import opened Values

  /** The outcome of one HTTP call as the store sees it: `Ok` carries the
      reply body's `data` and `message`; `Err` carries the failure's
      `response.data.message` and its own `message` (either may be absent). */
  datatype HttpOutcome<D> = Ok(data: D, message: Value) | Err(responseMessage: Value, errorMessage: Value)

  /** What a store method returns to the view: `{success, message}`. */
  datatype StoreResult = StoreResult(success: bool, message: Value)

  /** A request body the store sends; used to state that validation failures
      send nothing. */
  datatype Request = PostProduct(body: Fields) | PutProduct(pid: Value, body: Fields)

  const FillInAllFields := "Please fill in all fields."
  const ProductCreated := "Product created successfully."
  const ProductUpdated := "Product updated successfully."
  const CreateFallback := "Failed to create product."
  const FetchFallback := "Failed to fetch products."
  const DeleteFallback := "Failed to delete product."
  const UpdateFallback := "Failed to update product."

  /** The failure message `response.data.message || error.message || fallback`:
      the first truthy of the two reported messages, else the fallback. */
  function ErrorMessage(responseMessage: Value, errorMessage: Value, fallback: string): (m: Value)
    ensures fallback != "" ==> Truthy(m)
    ensures Truthy(responseMessage) ==> m == responseMessage
    ensures !Truthy(responseMessage) && Truthy(errorMessage) ==> m == errorMessage
    ensures !Truthy(responseMessage) && !Truthy(errorMessage) ==> m == Str(fallback)
  {
    Or(Or(responseMessage, errorMessage), Str(fallback))
  }

  /** `products.filter(p => p._id !== pid)`. */
  function Without(products: seq<Product>, pid: Value): (r: seq<Product>)
    ensures |r| <= |products|
    ensures forall p :: p in r <==> p in products && p.underscoreId != pid
  {
    if products == [] then []
    else (if products[0].underscoreId != pid then [products[0]] else []) + Without(products[1..], pid)
  }

  /** `products.map(p => p._id === pid ? record : p)`. */
  function Replaced(products: seq<Product>, pid: Value, record: Product): (r: seq<Product>)
    ensures |r| == |products|
    ensures forall i :: 0 <= i < |r| ==> r[i] == if products[i].underscoreId == pid then record else products[i]
  {
    if products == [] then []
    else [if products[0].underscoreId == pid then record else products[0]] + Replaced(products[1..], pid, record)
  }

  /** Filtering distributes over concatenation: the kept elements keep their
      relative order. */
  lemma {:induction false} WithoutConcat(a: seq<Product>, b: seq<Product>, pid: Value)
    ensures Without(a + b, pid) == Without(a, pid) + Without(b, pid)
  {
    if a == [] {
      assert a + b == b;
    } else {
      assert (a + b)[1..] == a[1..] + b;
      WithoutConcat(a[1..], b, pid);
    }
  }

  /** Each product not keyed by `pid` survives as often as it occurred; every
      product keyed by `pid` is gone. */
  lemma {:induction false} WithoutCounts(products: seq<Product>, pid: Value, p: Product)
    ensures multiset(Without(products, pid))[p] == if p.underscoreId == pid then 0 else multiset(products)[p]
  {
    if products != [] {
      WithoutCounts(products[1..], pid, p);
      assert products == [products[0]] + products[1..];
    }
  }

  /** Deleting the same id twice leaves the same list as deleting it once. */
  lemma {:induction false} WithoutIdempotent(products: seq<Product>, pid: Value)
    ensures Without(Without(products, pid), pid) == Without(products, pid)
  {
    if products != [] {
      WithoutIdempotent(products[1..], pid);
      var head := if products[0].underscoreId != pid then [products[0]] else [];
      WithoutConcat(head, Without(products[1..], pid), pid);
    }
  }

  /** Deleting an id no product carries leaves the list unchanged. */
  lemma {:induction false} WithoutNoMatch(products: seq<Product>, pid: Value)
    requires forall p :: p in products ==> p.underscoreId != pid
    ensures Without(products, pid) == products
  {
    if products != [] {
      WithoutNoMatch(products[1..], pid);
      assert products == [products[0]] + products[1..];
    }
  }

  /** Updating an id no product carries leaves the list unchanged. */
  lemma ReplacedNoMatch(products: seq<Product>, pid: Value, record: Product)
    requires forall p :: p in products ==> p.underscoreId != pid
    ensures Replaced(products, pid, record) == products
  {
  }

  /** Applying the same update twice gives the same list as applying it once. */
  lemma ReplacedIdempotent(products: seq<Product>, pid: Value, record: Product)
    ensures Replaced(Replaced(products, pid, record), pid, record) == Replaced(products, pid, record)
  {
  }

  /** The store keys on `_id` while database rows carry `id`. When no cached
      product has an `_id` the view passes `undefined` as `pid`, and a
      successful delete then empties the whole cache. */
  lemma DeleteWithoutUnderscoreIdsClearsCache(products: seq<Product>)
    requires forall p :: p in products ==> p.underscoreId == Missing
    ensures Without(products, Missing) == []
  {
  }

  /** Likewise a successful update then overwrites every cached product with
      the returned record. */
  lemma UpdateWithoutUnderscoreIdsOverwritesCache(products: seq<Product>, record: Product)
    requires forall p :: p in products ==> p.underscoreId == Missing
    ensures forall q :: q in Replaced(products, Missing, record) ==> q == record
  {
  }

  class ProductStore {
    var products: seq<Product>

    constructor ()
      ensures products == []
    {
      products := [];
    }

    /** `setProducts(ps)`: replace the cache wholesale. */
    method SetProducts(ps: seq<Product>)
      modifies this
      ensures products == ps
    {
      products := ps;
    }

    /** `createProduct(newProduct)`: validate, POST, append the returned record. */
    method CreateProduct(newProduct: Fields, http: HttpOutcome<Product>) returns (sent: Option<Request>, result: StoreResult)
      modifies this
      ensures !result.success ==> products == old(products) && Truthy(result.message)
      ensures !AllFieldsTruthy(newProduct) ==> sent == None && result == StoreResult(false, Str(FillInAllFields))
      ensures AllFieldsTruthy(newProduct) ==> sent == Some(PostProduct(newProduct))
      ensures AllFieldsTruthy(newProduct) && http.Ok? ==>
        products == old(products) + [http.data] && result == StoreResult(true, Str(ProductCreated))
      ensures AllFieldsTruthy(newProduct) && http.Err? ==>
        result == StoreResult(false, ErrorMessage(http.responseMessage, http.errorMessage, CreateFallback))
    {
      if !AllFieldsTruthy(newProduct) {
        return None, StoreResult(false, Str(FillInAllFields));
      }
      sent := Some(PostProduct(newProduct));
      match http
      case Ok(created, _) =>
        products := products + [created];
        result := StoreResult(true, Str(ProductCreated));
      case Err(responseMessage, errorMessage) =>
        result := StoreResult(false, ErrorMessage(responseMessage, errorMessage, CreateFallback));
    }

    /** `fetchProducts()`: GET, replace the cache with the server's list. */
    method FetchProducts(http: HttpOutcome<seq<Product>>) returns (result: StoreResult)
      modifies this
      ensures !result.success ==> products == old(products) && Truthy(result.message)
      ensures http.Ok? ==> products == http.data && result == StoreResult(true, Missing)
      ensures http.Err? ==>
        result == StoreResult(false, ErrorMessage(http.responseMessage, http.errorMessage, FetchFallback))
    {
      match http
      case Ok(rows, _) =>
        products := rows;
        result := StoreResult(true, Missing);
      case Err(responseMessage, errorMessage) =>
        result := StoreResult(false, ErrorMessage(responseMessage, errorMessage, FetchFallback));
    }

    /** `deleteProduct(pid)`: DELETE, drop every product whose `_id` is `pid`. */
    method DeleteProduct(pid: Value, http: HttpOutcome<()>) returns (result: StoreResult)
      modifies this
      ensures !result.success ==> products == old(products) && Truthy(result.message)
      ensures http.Ok? ==> products == Without(old(products), pid) && result == StoreResult(true, http.message)
      ensures http.Err? ==>
        result == StoreResult(false, ErrorMessage(http.responseMessage, http.errorMessage, DeleteFallback))
    {
      match http
      case Ok(_, message) =>
        products := Without(products, pid);
        result := StoreResult(true, message);
      case Err(responseMessage, errorMessage) =>
        result := StoreResult(false, ErrorMessage(responseMessage, errorMessage, DeleteFallback));
    }

    /** `updateProduct(pid, updatedProduct)`: validate, PUT, put the returned
        record at every position whose `_id` is `pid`. */
    method UpdateProduct(pid: Value, updated: Fields, http: HttpOutcome<Product>) returns (sent: Option<Request>, result: StoreResult)
      modifies this
      ensures !result.success ==> products == old(products) && Truthy(result.message)
      ensures !AllFieldsTruthy(updated) ==> sent == None && result == StoreResult(false, Str(FillInAllFields))
      ensures AllFieldsTruthy(updated) ==> sent == Some(PutProduct(pid, updated))
      ensures AllFieldsTruthy(updated) && http.Ok? ==>
        && products == Replaced(old(products), pid, http.data)
        && result == StoreResult(true, Or(http.message, Str(ProductUpdated)))
      ensures AllFieldsTruthy(updated) && http.Err? ==>
        result == StoreResult(false, ErrorMessage(http.responseMessage, http.errorMessage, UpdateFallback))
    {
      if !AllFieldsTruthy(updated) {
        return None, StoreResult(false, Str(FillInAllFields));
      }
      sent := Some(PutProduct(pid, updated));
      match http
      case Ok(record, message) =>
        products := Replaced(products, pid, record);
        result := StoreResult(true, Or(message, Str(ProductUpdated)));
      case Err(responseMessage, errorMessage) =>
        result := StoreResult(false, ErrorMessage(responseMessage, errorMessage, UpdateFallback));
    }
  }
}
