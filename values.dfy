/** JavaScript values as they travel in request bodies and responses, with
    JavaScript truthiness and the `||` operator that both the client store
    and the request handlers use to validate fields and to pick messages. */
module Values {

  datatype Option<T> = None | Some(value: T)

  /** A JSON-transportable JavaScript value. `Missing` stands for a property
      that is absent (`undefined`). Strict equality (`===`) on these values is
      Dafny's `==`. */
  datatype Value =
    | Missing
    | Null
    | Bool(b: bool)
    | Num(n: real)
    | Str(s: string)

  /** JavaScript truthiness: `undefined`, `null`, `false`, `0` and `""` are
      falsy; every other value, including the string "0", is truthy. */
  predicate Truthy(v: Value)
    ensures Truthy(v) <==> v !in {Missing, Null, Bool(false), Num(0.0), Str("")}
  {
    match v
    case Missing => false
    case Null => false
    case Bool(b) => b
    case Num(n) => n != 0.0
    case Str(s) => s != ""
  }

  /** JavaScript `a || b`: the first operand when it is truthy, else the second. */
  function Or(a: Value, b: Value): (r: Value)
    ensures Truthy(r) <==> Truthy(a) || Truthy(b)
    ensures r == a || r == b
    ensures Truthy(a) ==> r == a
    ensures !Truthy(a) ==> r == b
  {
    if Truthy(a) then a else b
  }

  /** The three business fields of a create or update request body. */
  datatype Fields = Fields(name: Value, price: Value, image: Value)

  /** The guard `!name || !price || !image` fails, i.e. every field is truthy.
      The client checks the fields in the order name, image, price on create
      and name, price, image on update; evaluating truthiness has no effect,
      so the order does not matter. */
  predicate AllFieldsTruthy(f: Fields)
    ensures AllFieldsTruthy(f) <==> !(!Truthy(f.name) || !Truthy(f.image) || !Truthy(f.price))
    ensures AllFieldsTruthy(f) <==> forall v :: v in [f.name, f.price, f.image] ==> Truthy(v)
  {
    Truthy(f.name) && Truthy(f.price) && Truthy(f.image)
  }

  /** A product record as the client receives it. The client store compares
      the `_id` property (`underscoreId`); the database rows carry `id`. */
  datatype Product = Product(underscoreId: Value, id: Value, name: Value, price: Value, image: Value)
}
