/** The four product request handlers. Each maps the request (path id and
    body) plus the outcome of its one persistence call to the persistence
    request it issues (if any) and exactly one HTTP status and envelope
    `{success, data?, message?}`. The persistence client is not modelled:
    its outcome is an input. */
module ProductController {
  import opened Values

  /** What the persistence call reported: a result, an `error` object in the
      reply, or an exception thrown by the client. */
  datatype DbOutcome<D> = DbOk(data: D) | DbErr | Thrown

  /** The persistence request a handler issues against the `products` table.
      `priceInput` is the body's price before `parseFloat` is applied. */
  datatype DbRequest =
    | InsertProduct(name: Value, priceInput: Value, image: Value)
    | SelectProducts(orderColumn: string, ascending: bool)
    | DeleteProductsWhere(column: string, equals: string)
    | UpdateProductsWhere(column: string, equals: string, name: Value, priceInput: Value, image: Value)

  datatype Envelope<D> = Envelope(success: bool, data: Option<D>, message: Option<string>)

  datatype HttpResponse<D> = HttpResponse(status: nat, body: Envelope<D>)

  /** The request sent to persistence (None when the handler answered
      without touching it) and the response sent to the client. */
  datatype Handled<D> = Handled(request: Option<DbRequest>, response: HttpResponse<D>)

  const InternalServerError := "Internal Server Error"
  const ProvideAllFields := "Please provide all fields."
  const ProductDeleted := "Product Deleted"

  /** The shape every handler's response has: success exactly on 200/201;
      a failure carries a message and no data; a 500 carries only the generic
      message and a 400 only the validation message. */
  predicate Conforms<D>(r: HttpResponse<D>)
  {
    && (r.body.success <==> r.status == 200 || r.status == 201)
    && (!r.body.success ==> r.body.data.None? && r.body.message.Some?)
    && (r.status == 500 ==> r.body.message == Some(InternalServerError))
    && (r.status == 400 ==> r.body.message == Some(ProvideAllFields))
  }

  function Failure<D>(status: nat, message: string): HttpResponse<D>
  {
    HttpResponse(status, Envelope(false, None, Some(message)))
  }

  /** POST /products. */
  function CreateProduct(body: Fields, db: DbOutcome<Product>): (h: Handled<Product>)
    ensures Conforms(h.response)
    ensures h.response.status == 201 || h.response.status == 400 || h.response.status == 500
    ensures h.response.status == 400 <==> !AllFieldsTruthy(body)
    ensures h.request.None? <==> !AllFieldsTruthy(body)
    ensures h.request.Some? ==> h.request.value == InsertProduct(body.name, body.price, body.image)
    ensures h.response.status == 201 <==> AllFieldsTruthy(body) && db.DbOk?
    ensures AllFieldsTruthy(body) && db.DbOk? ==> h.response.body.data == Some(db.data)
    ensures h.response.status == 201 ==> h.response.body.message.None?
  {
    if !AllFieldsTruthy(body) then
      Handled(None, Failure(400, ProvideAllFields))
    else
      var request := Some(InsertProduct(body.name, body.price, body.image));
      match db
      case DbOk(data) => Handled(request, HttpResponse(201, Envelope(true, Some(data), None)))
      case _ => Handled(request, Failure(500, InternalServerError))
  }

  /** GET /products: all rows, newest `created_at` first. */
  function GetProducts(db: DbOutcome<seq<Product>>): (h: Handled<seq<Product>>)
    ensures Conforms(h.response)
    ensures h.request == Some(SelectProducts("created_at", false))
    ensures h.response.status == 200 <==> db.DbOk?
    ensures h.response.status != 200 ==> h.response.status == 500
    ensures db.DbOk? ==> h.response.body == Envelope(true, Some(db.data), None)
  {
    var request := Some(SelectProducts("created_at", false));
    match db
    case DbOk(rows) => Handled(request, HttpResponse(200, Envelope(true, Some(rows), None)))
    case _ => Handled(request, Failure(500, InternalServerError))
  }

  /** DELETE /products/{id}. The handler reads only whether persistence
      reported an error; the `nat` in `DbOk` stands for whatever else the
      client returns, which the handler ignores. */
  function DeleteProduct(id: string, db: DbOutcome<nat>): (h: Handled<()>)
    ensures Conforms(h.response)
    ensures h.request == Some(DeleteProductsWhere("id", id))
    ensures h.response.status == 200 <==> db.DbOk?
    ensures h.response.status != 200 ==> h.response.status == 500
    ensures db.DbOk? ==> h.response.body == Envelope(true, None, Some(ProductDeleted))
  {
    var request := Some(DeleteProductsWhere("id", id));
    match db
    case DbOk(_) => Handled(request, HttpResponse(200, Envelope(true, None, Some(ProductDeleted))))
    case _ => Handled(request, Failure(500, InternalServerError))
  }

  /** PUT /products/{id}. The body is not validated. */
  function UpdateProduct(id: string, body: Fields, db: DbOutcome<Product>): (h: Handled<Product>)
    ensures Conforms(h.response)
    ensures h.request == Some(UpdateProductsWhere("id", id, body.name, body.price, body.image))
    ensures h.response.status == 200 <==> db.DbOk?
    ensures h.response.status != 200 ==> h.response.status == 500
    ensures db.DbOk? ==> h.response.body == Envelope(true, Some(db.data), None)
  {
    var request := Some(UpdateProductsWhere("id", id, body.name, body.price, body.image));
    match db
    case DbOk(row) => Handled(request, HttpResponse(200, Envelope(true, Some(row), None)))
    case _ => Handled(request, Failure(500, InternalServerError))
  }

  /** A create whose fields fail validation does not depend on persistence at
      all: whatever persistence would have answered, the handled result is
      the same, and no insert is issued. */
  lemma CreateRejectionIgnoresPersistence(body: Fields, db1: DbOutcome<Product>, db2: DbOutcome<Product>)
    requires !AllFieldsTruthy(body)
    ensures CreateProduct(body, db1) == CreateProduct(body, db2)
    ensures CreateProduct(body, db1).request.None?
  {
  }

  /** The form sends strings, so a price of "0" passes the create check while
      the number 0 is rejected with 400. */
  lemma ZeroPriceStringIsAccepted(name: Value, image: Value, db: DbOutcome<Product>)
    requires Truthy(name) && Truthy(image)
    ensures CreateProduct(Fields(name, Str("0"), image), db).response.status != 400
    ensures CreateProduct(Fields(name, Num(0.0), image), db).response.status == 400
  {
  }

  /** Delete answers the same whether or not a row matched the id. */
  lemma DeleteIgnoresMatchCount(id: string, matched1: nat, matched2: nat)
    ensures DeleteProduct(id, DbOk(matched1)) == DeleteProduct(id, DbOk(matched2))
  {
  }

  /** Update never answers 400, even when every field is falsy. */
  lemma UpdateNeverRejectsFields(id: string, body: Fields, db: DbOutcome<Product>)
    ensures UpdateProduct(id, body, db).response.status != 400
  {
  }

  /** Whatever the request, a failed handler reveals no error detail: its
      message is one of the two fixed strings, and a persistence error and a
      thrown exception are answered identically. */
  lemma FailuresAreGeneric(id: string, body: Fields)
    ensures CreateProduct(body, DbErr) == CreateProduct(body, Thrown)
    ensures GetProducts(DbErr) == GetProducts(Thrown)
    ensures DeleteProduct(id, DbErr) == DeleteProduct(id, Thrown)
    ensures UpdateProduct(id, body, DbErr) == UpdateProduct(id, body, Thrown)
    ensures UpdateProduct(id, body, DbErr).response.body.message == Some(InternalServerError)
    ensures GetProducts(DbErr).response.body.message == Some(InternalServerError)
    ensures DeleteProduct(id, DbErr).response.body.message == Some(InternalServerError)
    ensures AllFieldsTruthy(body) ==> CreateProduct(body, DbErr).response.body.message == Some(InternalServerError)
  {
  }
}
