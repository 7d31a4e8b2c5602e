/** The catalog service: lookups, creation, updates and deletion of products
    through the product repository, with the service's own not-found and
    failed-update/failed-delete errors. */
module ProductService {
  import opened Wrappers
  import opened Repository
  import P = ProductModel

  const NotFound := "Producto no encontrado"
  const UpdateFailed := "No se pudo actualizar el producto"
  const DeleteFailed := "No se pudo eliminar el producto"
  /** What `record.update` throws when the new price is negative. */
  const PriceRefused := "Validation error: Validation min on precio failed"

  /** The message of the validation error `Product.create` throws. */
  function ValidationMessage(e: P.ValidationError): string
  {
    match e
    case NullViolation(field) => "notNull Violation: Product." + field + " cannot be null"
    case BelowMin(field, _) => "Validation error: Validation min on " + field + " failed"
  }

  /** `getProductById(id)`. */
  function GetProductById(products: BaseRepository<P.Product>, id: int): (r: Result<P.Product, string>)
    reads products
    ensures r.Ok? <==> id in products.table.rows
    ensures r.Ok? ==> r.value == products.table.rows[id]
    ensures r.Err? ==> r.error == NotFound
  {
    var found := products.GetById(id);
    if found.None? then Err(NotFound) else Ok(found.value)
  }

  /** `createProduct(data)`: no check of its own; the model's validation decides. */
  method CreateProduct(products: BaseRepository<P.Product>, f: P.ProductFields) returns (r: Result<int, string>)
    requires products.Valid() && forall p :: products.valid(p) <==> P.Valid(p)
    modifies products
    ensures products.Valid()
    ensures r.Ok? <==> P.Build(f).Ok?
    ensures r.Ok? ==> r.value !in old(products.table.rows)
                      && products.table.rows == old(products.table.rows)[r.value := P.Build(f).value]
    ensures r.Err? ==> r.error == ValidationMessage(P.Build(f).error) && products.table == old(products.table)
  {
    var built := P.Build(f);
    if built.Err? {
      return Err(ValidationMessage(built.error));
    }
    var id := products.Create(built.value);
    assert id.Some?;
    r := Ok(id.value);
  }

  /** `updateProduct(id, data)`: a missing product is a failed update; a negative
      price is refused by validation; otherwise the supplied attributes replace
      the stored ones. */
  method UpdateProduct(products: BaseRepository<P.Product>, id: int, f: P.ProductFields) returns (r: Result<P.Product, string>)
    requires products.Valid() && forall p :: products.valid(p) <==> P.Valid(p)
    modifies products
    ensures products.Valid()
    ensures id !in old(products.table.rows) ==> r == Err(UpdateFailed)
    ensures id in old(products.table.rows) && !P.Valid(P.Patch(old(products.table.rows)[id], f)) ==> r == Err(PriceRefused)
    ensures r.Ok? <==> id in old(products.table.rows) && P.Valid(P.Patch(old(products.table.rows)[id], f))
    ensures r.Ok? ==> r.value == P.Patch(old(products.table.rows)[id], f)
                      && products.table.rows == old(products.table.rows)[id := r.value]
    ensures r.Err? ==> products.table == old(products.table)
    ensures products.table.nextId == old(products.table.nextId)
  {
    var outcome := products.Update(id, (p: P.Product) => P.Patch(p, f));
    match outcome
    case NotFound => r := Err(UpdateFailed);
    case Rejected => r := Err(PriceRefused);
    case Updated(row) => r := Ok(row);
  }

  /** `deleteProduct(id)`: a missing product is a failed delete; otherwise that
      product alone is removed. */
  method DeleteProduct(products: BaseRepository<P.Product>, id: int) returns (r: Result<bool, string>)
    requires products.Valid()
    modifies products
    ensures products.Valid()
    ensures r.Ok? <==> id in old(products.table.rows)
    ensures r.Ok? ==> r.value && products.table.rows == old(products.table.rows) - {id}
    ensures r.Err? ==> r.error == DeleteFailed && products.table == old(products.table)
  {
    var deleted := products.Delete(id);
    if deleted.None? {
      return Err(DeleteFailed);
    }
    r := Ok(true);
  }

  /** A valid product stays valid under an update exactly when the update supplies
      no negative price, so a refused update is always a refused price. */
  lemma PatchValidity(p: P.Product, f: P.ProductFields)
    requires P.Valid(p)
    ensures P.Valid(P.Patch(p, f)) <==> f.precio.None? || f.precio.value >= 0
  {
  }
}
