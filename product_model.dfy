/** The `products` table: the catalog entry an order line is priced from. */
module ProductModel {
  import opened Wrappers

  /** A stored product; `precio` is in cents. */
  datatype Product = Product(
    nombre: string,
    descripcion: Option<string>,
    precio: int,
    imagen_url: Option<string>,
    categoria_id: int,
    disponible: bool)

  /** The row-level constraint once every required column is present. */
  predicate Valid(p: Product)
  {
    p.precio >= 0
  }

  /** The attributes a caller passes to `Product.create` or `update`; `None` is an omitted attribute. */
  datatype ProductFields = ProductFields(
    nombre: Option<string>,
    descripcion: Option<string>,
    precio: Option<int>,
    imagen_url: Option<string>,
    categoria_id: Option<int>,
    disponible: Option<bool>)

  datatype ValidationError = NullViolation(field: string) | BelowMin(field: string, min: int)

  /** `Product.create` before the insert: name, price and category are required,
      the price is at least 0, and availability defaults to true. */
  function Build(f: ProductFields): (r: Result<Product, ValidationError>)
    ensures r.Ok? <==> f.nombre.Some? && f.precio.Some? && f.precio.value >= 0 && f.categoria_id.Some?
    ensures r.Ok? ==> Valid(r.value)
    ensures r.Ok? ==> r.value.disponible == (f.disponible.None? || f.disponible.value)
    ensures r.Ok? ==> && r.value.nombre == f.nombre.value && r.value.precio == f.precio.value
                      && r.value.categoria_id == f.categoria_id.value
  {
    if f.nombre.None? then Err(NullViolation("nombre"))
    else if f.precio.None? then Err(NullViolation("precio"))
    else if f.precio.value < 0 then Err(BelowMin("precio", 0))
    else if f.categoria_id.None? then Err(NullViolation("categoria_id"))
    else Ok(Product(f.nombre.value, f.descripcion, f.precio.value, f.imagen_url, f.categoria_id.value,
                    if f.disponible.Some? then f.disponible.value else true))
  }

  /** `record.update(data)` on a product: supplied attributes replace the stored ones. */
  function Patch(p: Product, f: ProductFields): Product
  {
    Product(
      if f.nombre.Some? then f.nombre.value else p.nombre,
      if f.descripcion.Some? then f.descripcion else p.descripcion,
      if f.precio.Some? then f.precio.value else p.precio,
      if f.imagen_url.Some? then f.imagen_url else p.imagen_url,
      if f.categoria_id.Some? then f.categoria_id.value else p.categoria_id,
      if f.disponible.Some? then f.disponible.value else p.disponible)
  }
}
